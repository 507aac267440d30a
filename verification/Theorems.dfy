/** The promises of the operator, over every run of labels from any initial cluster and at every
    point of it, hence also wherever a crash stops the operator. */
module Theorems {
  import opened Prelude
  import opened Names
  import opened Api
  import opened Actions
  import opened Helpers
  import opened Protocol
  import opened UndoLog
  import opened Invariants

  /** Before any run: targets unheld and unmarked, nothing of ours in the cluster. */
  ghost predicate Initial(env: Env, w: World) {
    && (forall s | s in w.mjs ::
          var mj := w.mjs[s];
          && ScenarioName(env, s) && mj.status == EmptyStatus && mj.audit == [] && !mj.forceRelease &&
            mj.version <= w.revision
          && (env.freshReads ==> ActionsOK(env, s, mj.spec.actions)))
    && (forall d | d in w.deployments && d in env.domain ::
          d in env.original && Restored(env.original[d], w.deployments[d]))
    && (forall n | n in w.jobs :: w.jobs[n].scenario.None? && w.jobs[n].origin == Outside)
    && (forall k | k in w.chaos :: w.chaos[k].scenario.None?)
    && w.started == map[]
  }

  lemma InitialInv(env: Env, w: World)
    requires EnvOK(env) && Initial(env, w)
    ensures Inv(env, w)
  {
    forall s
      ensures Tokens(w, s) == []
    {
    }
    forall d | d in w.deployments && d in env.domain
      ensures DeploymentOK(env, w, d)
    {
      RestoredIsInvariantAtRest(env.original[d], w.deployments[d], env.domain[d], d);
    }
  }

  /** The cluster n labels into a run. */
  function At(w: World, ls: seq<Label>, n: nat): World
    requires n <= |ls|
  {
    After(w, ls[..n])
  }

  /** Some legal run leads here from an initial cluster. */
  ghost predicate Reachable(env: Env, now: World) {
    exists start: World, ls: seq<Label> :: LeadsTo(env, start, ls, now)
  }

  ghost predicate LeadsTo(env: Env, start: World, ls: seq<Label>, now: World) {
    Initial(env, start) && Legal(env, start, ls) && After(start, ls) == now
  }

  lemma ReachableInv(env: Env, now: World)
    requires EnvOK(env) && Reachable(env, now)
    ensures Inv(env, now)
  {
    var start: World, ls :| LeadsTo(env, start, ls, now);
    InitialInv(env, start);
    InvRun(env, start, ls);
  }

  /** Every point of every run is reachable: a crash may fall there. */
  lemma EveryPointIsReachable(env: Env, w: World, ls: seq<Label>, n: nat)
    requires Initial(env, w) && Legal(env, w, ls) && n <= |ls|
    ensures Reachable(env, At(w, ls, n))
  {
    LegalPrefix(env, w, ls, n);
    assert LeadsTo(env, w, ls[..n], At(w, ls, n));
  }

  lemma AtNext(env: Env, w: World, ls: seq<Label>, n: nat)
    requires Legal(env, w, ls) && n < |ls|
    ensures Allowed(env, At(w, ls, n), ls[n]) && At(w, ls, n + 1) == Next(At(w, ls, n), ls[n])
  {
    LegalPrefix(env, w, ls, n + 1);
    assert ls[..n + 1][..n] == ls[..n];
  }

  /** Some legal run leads from one cluster to another. */
  ghost predicate Follows(env: Env, w: World, w': World) {
    exists ls :: Legal(env, w, ls) && After(w, ls) == w'
  }

  lemma FollowsNext(env: Env, w: World, w': World, l: Label)
    requires Follows(env, w, w') && Allowed(env, w', l)
    ensures Follows(env, w, Next(w', l))
  {
    var ls :| Legal(env, w, ls) && After(w, ls) == w';
    LegalSnoc(env, w, ls, l);
    assert Legal(env, w, ls + [l]) && After(w, ls + [l]) == Next(w', l);
  }

  lemma FollowsItself(env: Env, w: World)
    ensures Follows(env, w, w)
  {
    assert Legal(env, w, []) && After(w, []) == w;
  }

  lemma LastApart(a: seq<Label>, b: seq<Label>)
    requires b != []
    ensures a + b == (a + b[..|b| - 1]) + [b[|b| - 1]]
  {
  }

  lemma {:induction false} LegalAppend(env: Env, w: World, a: seq<Label>, b: seq<Label>)
    requires Legal(env, w, a) && Legal(env, After(w, a), b)
    ensures Legal(env, w, a + b) && After(w, a + b) == After(After(w, a), b)
    decreases |b|
  {
    if b == [] {
      assert a + b == a;
    } else {
      var front, l := b[..|b| - 1], b[|b| - 1];
      LegalFront(env, After(w, a), b);
      LegalAppend(env, w, a, front);
      LegalSnoc(env, w, a + front, l);
      LastApart(a, b);
    }
  }

  lemma LegalFront(env: Env, w: World, ls: seq<Label>)
    requires Legal(env, w, ls) && ls != []
    ensures var front := ls[..|ls| - 1];
            && Legal(env, w, front) && Allowed(env, After(w, front), ls[|ls| - 1])
            && After(w, ls) == Next(After(w, front), ls[|ls| - 1])
  {
  }

  lemma ReachableFollows(env: Env, w: World, w': World)
    requires Reachable(env, w) && Follows(env, w, w')
    ensures Reachable(env, w')
  {
    var start: World, a :| LeadsTo(env, start, a, w);
    var b :| Legal(env, w, b) && After(w, b) == w';
    LegalAppend(env, start, a, b);
    assert LeadsTo(env, start, a + b, w');
  }

  /** The last label of a run was written in the world w, and led to where the run ends. */
  ghost predicate LastIn(start: World, trace: seq<Label>, w: World) {
    && trace != [] && At(start, trace, |trace| - 1) == w
    && At(start, trace, |trace|) == Next(w, trace[|trace| - 1])
  }

  lemma LastStep(env: Env, start: World, trace: seq<Label>) returns (w: World)
    requires EnvOK(env) && Inv(env, start) && Legal(env, start, trace) && trace != []
    ensures LastIn(start, trace, w) && Inv(env, w) && Allowed(env, w, trace[|trace| - 1])
    ensures w == After(start, trace[..|trace| - 1])
  {
    w := After(start, trace[..|trace| - 1]);
    assert trace[..|trace|] == trace;
    InvRun(env, start, trace[..|trace| - 1]);
  }

  // ---------- durable restoration ----------

  /** Every target of the scenario is as it was, and no Workload Job or chaos object of it exists. */
  ghost predicate AtRest(env: Env, w: World, s: string) {
    && (forall d | d in w.deployments && OwnTarget(env, s, d) ::
          d in env.original && Restored(env.original[d], w.deployments[d]))
    && (forall n | n in w.jobs :: !(w.jobs[n].origin.Load? && w.jobs[n].scenario == Some(s)))
    && (forall k | k in w.chaos :: w.chaos[k].scenario != Some(s))
  }

  lemma NoTokensMeansAtRest(env: Env, w: World, s: string)
    requires EnvOK(env) && StrongInv(env, w) && Tokens(w, s) == []
    ensures AtRest(env, w, s)
  {
    forall d | d in w.deployments && OwnTarget(env, s, d)
      ensures d in env.original && Restored(env.original[d], w.deployments[d])
    {
      assert DeploymentOK(env, w, d);
      EmptyLogMeansRestored(env.original[d], w.deployments[d], s, d);
    }
    forall n | n in w.jobs
      ensures !(w.jobs[n].origin.Load? && w.jobs[n].scenario == Some(s))
    {
      assert JobOK(env, w, n);
    }
    forall k | k in w.chaos
      ensures w.chaos[k].scenario != Some(s)
    {
      assert ChaosOK(w, k);
    }
  }

  /** Durable restoration: wherever a run or a crash has led, a scenario without live tokens, whether
      idle, deleted or never started, has left nothing behind. */
  lemma DurableRestoration(env: Env, now: World, s: string)
    requires EnvOK(env) && env.freshReads && Reachable(env, now)
    requires s in now.mjs ==> now.mjs[s].status.activeActions == []
    ensures AtRest(env, now, s)
  {
    ReachableInv(env, now);
    NoTokensMeansAtRest(env, now, s);
  }

  // ---------- write-ahead ----------

  /** Some token put the image on the container. */
  predicate PutByToken(ts: seq<Token>, d: string, c: string, image: string) {
    exists i :: 0 <= i < |ts| && OnContainer(ts[i], d, c) && ts[i].badImage == image
  }

  /** A live token of the scenario accounts for every difference. */
  ghost predicate Covered(env: Env, w: World, s: string, d: string)
    requires d in w.deployments && d in env.original
  {
    var o, dep, ts := env.original[d], w.deployments[d], Tokens(w, s);
    && SameNames(dep.containers, o.containers)
    && (Replicas(dep) != Replicas(o) ==>
          exists i :: 0 <= i < |ts| && ScalesIt(ts[i], d) && ts[i].previousReplicas == Replicas(o))
    && (forall c | 0 <= c < |o.containers| && dep.containers[c].image != o.containers[c].image ::
          PutByToken(ts, d, o.containers[c].name, dep.containers[c].image))
    && (dep.heldBy != "" || dep.knownGood != map[] || dep.scenario.Some? ==>
          exists i :: 0 <= i < |ts| && Targets(ts[i], d))
  }

  lemma ImagesCovered(o: Deployment, dep: Deployment, ts: seq<Token>, d: string, c: nat)
    requires ImagesOK(o, dep.containers, ts, d) && c < |o.containers| &&
             dep.containers[c].image != o.containers[c].image
    ensures PutByToken(ts, d, o.containers[c].name, dep.containers[c].image)
  {
    assert ImageOK(o, ts, d, c, dep.containers[c].image);
    var i := BadImageNamesToken(ts, d, o.containers[c].name, dep.containers[c].image);
  }

  lemma MarksCovered(o: Deployment, dep: Deployment, ts: seq<Token>, s: string, d: string)
    requires KnownGoodOK(o, dep, ts, d) && MarkersOK(dep, ts, s, d)
    requires dep.heldBy != "" || dep.knownGood != map[] || dep.scenario.Some?
    ensures exists i :: 0 <= i < |ts| && Targets(ts[i], d)
  {
    if dep.heldBy != "" {
      var i := TouchedNamesToken(ts, d);
    } else {
      var c :| c in dep.knownGood;
      var image :| image in BadImages(ts, d, c);
      var i := BadImageNamesToken(ts, d, c, image);
    }
  }

  lemma DeploymentCovered(env: Env, w: World, s: string, d: string)
    requires EnvOK(env) && StrongInv(env, w) && d in w.deployments && OwnTarget(env, s, d)
    ensures Covered(env, w, s, d)
  {
    assert DeploymentOK(env, w, d);
    var o, dep, ts := env.original[d], w.deployments[d], Tokens(w, s);
    if Replicas(dep) != Replicas(o) {
      var i := OldestNamesToken(ts, d);
    }
    forall c | 0 <= c < |o.containers| && dep.containers[c].image != o.containers[c].image
      ensures PutByToken(ts, d, o.containers[c].name, dep.containers[c].image)
    {
      ImagesCovered(o, dep, ts, d, c);
    }
    if dep.heldBy != "" || dep.knownGood != map[] || dep.scenario.Some? {
      MarksCovered(o, dep, ts, s, d);
    }
  }

  /** Whatever differs from normal on behalf of the scenario is named by one of its live tokens. */
  ghost predicate Accounted(env: Env, w: World, s: string) {
    && (forall d | d in w.deployments && OwnTarget(env, s, d) :: d in env.original && Covered(env, w, s, d))
    && (forall n | n in w.jobs && w.jobs[n].origin.Load? && w.jobs[n].scenario == Some(s) ::
          WorkloadToken(n) in Tokens(w, s))
    && (forall k | k in w.chaos && w.chaos[k].scenario == Some(s) :: ChaosMeshToken(k.kind, k.name) in Tokens(w, s))
  }

  /** Write-ahead: wherever a run or a crash has led, every change is covered by a token that is
      already persisted in the status of the scenario responsible. */
  lemma WriteAhead(env: Env, now: World, s: string)
    requires EnvOK(env) && env.freshReads && Reachable(env, now)
    ensures Accounted(env, now, s)
  {
    ReachableInv(env, now);
    forall d | d in now.deployments && OwnTarget(env, s, d) ensures d in env.original && Covered(env, now, s, d) {
      DeploymentCovered(env, now, s, d);
    }
    forall n | n in now.jobs && now.jobs[n].origin.Load? && now.jobs[n].scenario == Some(s)
      ensures WorkloadToken(n) in Tokens(now, s)
    {
      assert JobOK(env, now, n);
    }
    forall k | k in now.chaos && now.chaos[k].scenario == Some(s)
      ensures ChaosMeshToken(k.kind, k.name) in Tokens(now, s)
    {
      assert ChaosOK(now, k);
    }
  }

  // ---------- tokens are write-once, whatever the operator has read ----------

  function TokenNamed(w: World, s: string, name: string): Option<Token> {
    if s !in w.mjs then None
    else
      var list := w.mjs[s].status.activeActions;
      var i := FindActiveAction(list, name);
      if i < 0 then None else Some(list[i].token)
  }

  lemma FindIsUnique(list: seq<ActiveAction>, i: nat)
    requires DistinctNames(list) && i < |list|
    ensures FindActiveAction(list, list[i].name) == i
  {
  }

  lemma SameEntry(list: seq<ActiveAction>, list': seq<ActiveAction>, j: nat, i': nat)
    requires DistinctNames(list) && DistinctNames(list') && j < |list| && i' < |list'|
    requires list[j].name == list'[i'].name && list[j].token == list'[i'].token
    ensures var name := list[j].name;
            var a, b := FindActiveAction(list, name), FindActiveAction(list', name);
            a >= 0 && b >= 0 && list[a].token == list'[b].token
  {
    FindIsUnique(list, j);
    FindIsUnique(list', i');
  }

  /** Every entry after the write stems from an entry before it, or is new. */
  lemma EntryBefore(why: Why, st: Status, st': Status, i': nat) returns (j: int)
    requires WeakStatus(why, st, st') && i' < |st'.activeActions|
    ensures j < |st.activeActions|
    ensures j >= 0 ==>
              && st.activeActions[j].name == st'.activeActions[i'].name
              && st.activeActions[j].token == st'.activeActions[i'].token
    ensures j < 0 ==> FindActiveAction(st.activeActions, st'.activeActions[i'].name) < 0
  {
    var list, list' := st.activeActions, st'.activeActions;
    j := i';
    match why {
      case Record(action, _) =>
        if i' < |list| {
          assert FindActiveAction(list, action.name) < 0 ==> list'[i'] == list'[..|list|][i'];
        } else {
          j := -1;
        }
      case Drop(dropped) =>
        var k := FindActiveAction(list, dropped);
        if 0 <= k <= i' {
          j := i' + 1;
        }
      case _ =>
    }
  }

  lemma StatusKeepsToken(why: Why, st: Status, st': Status, name: string)
    requires WeakStatus(why, st, st') && DistinctNames(st.activeActions) && DistinctNames(st'.activeActions)
    requires FindActiveAction(st.activeActions, name) >= 0 && FindActiveAction(st'.activeActions, name) >= 0
    ensures st.activeActions[FindActiveAction(st.activeActions, name)].token
            == st'.activeActions[FindActiveAction(st'.activeActions, name)].token
  {
    var i' := FindActiveAction(st'.activeActions, name);
    var j := EntryBefore(why, st, st', i');
    SameEntry(st.activeActions, st'.activeActions, j, i');
  }

  lemma StepKeepsToken(env: Env, w: World, l: Label, s: string, name: string)
    requires WeakInv(w) && Allowed(env, w, l)
    requires TokenNamed(w, s, name).Some? && TokenNamed(Next(w, l), s, name).Some?
    ensures TokenNamed(Next(w, l), s, name) == TokenNamed(w, s, name)
  {
    WeakStep(env, w, l);
    OtherMJsKept(w, l);
    assert WeakMJ(w, s) && WeakMJ(Next(w, l), s);
    if Subject(l) == Some(s) {
      SubjectShape(w, l);
      if l.PutStatus? {
        StatusKeepsToken(l.why, w.mjs[s].status, l.status, name);
      } else {
        EditedShape(w.mjs[s], l);
      }
    }
  }

  lemma PointInv(env: Env, w: World, ls: seq<Label>, n: nat)
    requires EnvOK(env) && Initial(env, w) && Legal(env, w, ls) && n <= |ls|
    ensures Inv(env, At(w, ls, n))
  {
    EveryPointIsReachable(env, w, ls, n);
    ReachableInv(env, At(w, ls, n));
  }

  /** Write-once: as long as an action stays in the status its token is the one first persisted,
      and active names stay distinct. No hypothesis on what the operator has read. */
  lemma {:induction false} WriteOnce(env: Env, w: World, ls: seq<Label>, i: nat, j: nat, s: string, name: string)
    requires EnvOK(env) && Initial(env, w) && Legal(env, w, ls) && i <= j <= |ls|
    requires forall k | i <= k <= j :: TokenNamed(At(w, ls, k), s, name).Some?
    ensures TokenNamed(At(w, ls, j), s, name) == TokenNamed(At(w, ls, i), s, name)
    ensures DistinctNames(At(w, ls, j).mjs[s].status.activeActions)
    decreases j
  {
    PointInv(env, w, ls, j);
    assert TokenNamed(At(w, ls, j), s, name).Some? && WeakMJ(At(w, ls, j), s);
    if i < j {
      WriteOnce(env, w, ls, i, j - 1, s, name);
      PointInv(env, w, ls, j - 1);
      AtNext(env, w, ls, j - 1);
      StepKeepsToken(env, At(w, ls, j - 1), ls[j - 1], s, name);
    }
  }

  // ---------- the finalizer ----------

  lemma LeakKeysDiffer(s: string, a: string, a': string, stamp: string)
    requires LeakKey(s, a, stamp) == LeakKey(s, a', stamp)
    ensures a == a'
  {
    var key := LeakKey(s, a, stamp);
    assert |a| == |a'|;
    assert a == key[|s| + 1..|s| + 1 + |a|];
    assert a' == LeakKey(s, a', stamp)[|s| + 1..|s| + 1 + |a'|];
  }

  /** The resource has lost its finalizer by this label, and rightly so: by force-release, with every
      token under a key of its own, and, if names hold no dots, in the leak ConfigMap. */
  ghost predicate ReleasedWithLeaks(env: Env, w: World, l: Label, s: string)
    requires s in w.mjs
  {
    var list := w.mjs[s].status.activeActions;
    && l.DropFinalizer? && l.s == s && w.mjs[s].deleting && w.mjs[s].forceRelease
    && (env.dotless ==> Leaked(w, s, list, l.stamp))
    && forall i, j | 0 <= i < j < |list| :: LeakKey(s, list[i].name, l.stamp) != LeakKey(s, list[j].name, l.stamp)
  }

  /** Whatever the operator has read, tokens imply the finalizer. */
  lemma TokensImplyFinalizer(env: Env, now: World, s: string)
    requires EnvOK(env) && Reachable(env, now)
    requires s in now.mjs && now.mjs[s].status.activeActions != []
    ensures now.mjs[s].finalizer
  {
    ReachableInv(env, now);
    assert WeakMJ(now, s);
  }

  /** Finalizer safety, whatever the operator has read: a resource that still has tokens loses its
      finalizer only by force-release, when every one of them is leaked. */
  lemma FinalizerSafety(env: Env, now: World, l: Label, s: string)
    requires EnvOK(env) && Reachable(env, now) && Allowed(env, now, l)
    requires s in now.mjs && now.mjs[s].status.activeActions != []
    ensures s !in Next(now, l).mjs || !Next(now, l).mjs[s].finalizer ==> ReleasedWithLeaks(env, now, l, s)
  {
    ReachableInv(env, now);
    assert WeakMJ(now, s);
    if Subject(l) == Some(s) {
      ReleaseNeedsLeaks(env, now, l, s);
    } else {
      OtherMJsKept(now, l);
    }
  }

  lemma ReleaseNeedsLeaks(env: Env, w: World, l: Label, s: string)
    requires Subject(l) == Some(s) && Allowed(env, w, l)
    requires s in w.mjs && WeakMJ(w, s) && w.mjs[s].status.activeActions != []
    ensures s !in Next(w, l).mjs || !Next(w, l).mjs[s].finalizer ==> ReleasedWithLeaks(env, w, l, s)
  {
    SubjectShape(w, l);
    EditedShape(w.mjs[s], l);
    if l.DropFinalizer? {
      KeysDiffer(s, w.mjs[s].status.activeActions, l.stamp);
    }
  }

  lemma KeysDiffer(s: string, list: seq<ActiveAction>, stamp: string)
    requires DistinctNames(list)
    ensures forall i, j | 0 <= i < j < |list| :: LeakKey(s, list[i].name, stamp) != LeakKey(s, list[j].name, stamp)
  {
    forall i, j | 0 <= i < j < |list|
      ensures LeakKey(s, list[i].name, stamp) != LeakKey(s, list[j].name, stamp)
    {
      if LeakKey(s, list[i].name, stamp) == LeakKey(s, list[j].name, stamp) {
        LeakKeysDiffer(s, list[i].name, list[j].name, stamp);
      }
    }
  }

  /** What a scenario leaked is never overwritten on behalf of another one. */
  lemma LeaksStaySeparate(env: Env, w: World, l: Label, s: string, action: string, stamp: string)
    requires env.dotless && ScenarioName(env, s) && Allowed(env, w, l) && (l.Leak? ==> l.s != s)
    requires LeakKey(s, action, stamp) in w.leaked
    ensures LeakKey(s, action, stamp) in Next(w, l).leaked
    ensures Next(w, l).leaked[LeakKey(s, action, stamp)] == w.leaked[LeakKey(s, action, stamp)]
  {
    var key := LeakKey(s, action, stamp);
    LeaksAndClock(w, l);
    if l.Leak? && key in l.entries {
      assert s + "." <= key;
      PrefixDeterminesName(key, s, l.s, '.');
    }
  }

  /** Some action of each, leaked in the same second, would share a key. */
  ghost predicate MayShareLeakKey(s: string, s': string) {
    exists a: string, a': string, stamp: string ::
      a != "" && a' != "" && LeakKey(s, a, stamp) == LeakKey(s', a', stamp)
  }

  /** Names with dots, which Kubernetes allows, break that, and exactly so: two scenarios may share a
      key if and only if one name continues the other after a dot. */
  lemma LeakKeysCollideIffDottedPrefix(s: string, s': string)
    ensures MayShareLeakKey(s, s') <==> s + "." <= s' + "." || s' + "." <= s + "."
  {
    if MayShareLeakKey(s, s') {
      var a: string, a': string, stamp: string :| LeakKey(s, a, stamp) == LeakKey(s', a', stamp);
      assert s + "." <= LeakKey(s, a, stamp) && s' + "." <= LeakKey(s', a', stamp);
    }
    if s + "." <= s' + "." {
      DottedPrefixCollides(s, s');
    } else if s' + "." <= s + "." {
      DottedPrefixCollides(s', s);
    }
  }

  lemma DottedPrefixCollides(s: string, s': string)
    requires s + "." <= s' + "."
    ensures MayShareLeakKey(s, s') && MayShareLeakKey(s', s)
  {
    if |s| == |s'| {
      assert s == (s' + ".")[..|s|] == s';
      assert LeakKey(s, "x", "") == LeakKey(s', "x", "");
    } else {
      var rest := s'[|s| + 1..];
      assert s' == s + "." + rest;
      assert LeakKey(s, rest + ".x", "") == LeakKey(s', "x", "");
    }
  }

  // ---------- runs are serial ----------

  /** Tokens exist only while a run does and all belong to it; the history is exactly the last ten
      finished runs (or all, when fewer), and its newest ID is the last completed one. */
  ghost predicate Serial(env: Env, s: string, mj: MaintenanceJob) {
    var st := mj.status;
    && (st.activeActions != [] ==> st.currentRun.Some?)
    && (forall i | 0 <= i < |st.activeActions| :: TokenOK(env, s, st.currentRun.value, st.activeActions[i]))
    && |st.history| == (if |mj.audit| < 10 then |mj.audit| else 10)
    && st.history == mj.audit[|mj.audit| - |st.history|..]
    && (mj.audit != [] ==> st.lastCompletedRunID == st.history[|st.history| - 1].id)
  }

  /** The run in flight has begun, and those in the history have ended. */
  predicate PastIsPast(w: World, s: string)
    requires s in w.mjs
  {
    var st := w.mjs[s].status;
    && (st.currentRun.Some? ==> st.currentRun.value.startedAt <= w.clock)
    && (st.history != [] ==> st.history[|st.history| - 1].endedAt <= w.clock)
  }

  lemma PastIsPastAt(env: Env, w: World, s: string)
    requires EnvOK(env) && env.freshReads && Inv(env, w) && s in w.mjs
    ensures PastIsPast(w, s)
  {
    assert RunOK(w, s) && StatusOK(env, s, w.mjs[s]);
  }

  lemma BooksAreSerial(env: Env, s: string, mj: MaintenanceJob)
    requires StatusOK(env, s, mj)
    ensures Serial(env, s, mj)
  {
  }

  /** Runs are serial, wherever a run of the system or a crash has led. */
  lemma RunsAreSerial(env: Env, now: World, s: string)
    requires EnvOK(env) && env.freshReads && Reachable(env, now) && s in now.mjs
    ensures Serial(env, s, now.mjs[s])
  {
    ReachableInv(env, now);
    BooksAreSerial(env, s, now.mjs[s]);
  }

  /** All tokens belong to the run in flight: whatever starts, finishes or replaces a run finds none
      and leaves none. */
  lemma RunChangesWithoutTokens(env: Env, now: World, l: Label, s: string)
    requires EnvOK(env) && env.freshReads && Reachable(env, now) && Allowed(env, now, l)
    requires RunOf(Next(now, l), s) != RunOf(now, s)
    ensures Tokens(now, s) == [] && Tokens(Next(now, l), s) == []
  {
    ReachableInv(env, now);
    RunsKeptStep(env, now, l);
    OtherMJsKept(now, l);
    if Tokens(now, s) == [] && Subject(l) == Some(s) {
      SubjectShape(now, l);
      if l.PutStatus? {
        assert StrongStatus(env, now, s, l.why, now.mjs[s].status, l.status);
        assert WeakStatus(l.why, now.mjs[s].status, l.status);
      }
    }
  }

  // ---------- run-scoped exec ----------

  /** The Job succeeded and was made in the run in flight for the given phase. */
  ghost predicate MadeInRun(w: World, s: string, n: string, phase: ExecPhase)
    requires s in w.mjs
  {
    var run := w.mjs[s].status.currentRun;
    && n in w.jobs && w.jobs[n].scenario == Some(s) && w.jobs[n].state == Succeeded
    && run.Some? && w.jobs[n].origin == Exec(run.value.id, w.mjs[s].era, phase)
  }

  /** The Job succeeded and looks like one made in this run for this phase, but was made in another run
      of the same ID, or is the Workload Job of a live action. */
  ghost predicate Misleads(w: World, s: string, n: string, phase: ExecPhase)
    requires s in w.mjs
  {
    var run := w.mjs[s].status.currentRun;
    && n in w.jobs && w.jobs[n].scenario == Some(s) && w.jobs[n].state == Succeeded && run.Some?
    && match w.jobs[n].origin
       case Exec(runID, era, made) =>
         && runID == run.value.id && era != w.mjs[s].era && made == phase
         && era in w.started && w.started[era] == StartedRun(s, runID)
       case Load(_) => WorkloadToken(n) in Tokens(w, s)
       case Outside => false
  }

  /** No other run of the scenario ever had the ID of the one in flight. */
  ghost predicate FreshID(w: World, s: string)
    requires s in w.mjs
  {
    var run := w.mjs[s].status.currentRun;
    run.Some? ==> forall e | e in w.started && w.started[e] == StartedRun(s, run.value.id) :: e == w.mjs[s].era
  }

  /** No other run ID has the digest of this one. */
  ghost predicate DigestTells(env: Env, runID: string) {
    forall other :: env.digest(other) == env.digest(runID) ==> other == runID
  }

  /** The scenario is in a run whose ID its digest tells, and the token is one of that run's. */
  ghost predicate ExecToken(env: Env, w: World, s: string, t: Token) {
    && t.DBExecToken? && t in Tokens(w, s)
    && (w.mjs[s].status.currentRun.Some? ==> DigestTells(env, w.mjs[s].status.currentRun.value.id))
  }

  lemma SuffixCancels(a: string, b: string)
    requires a + EXEC_REVERT_SUFFIX == b + EXEC_REVERT_SUFFIX && |a| == |b|
    ensures a == b
  {
    assert a == (a + EXEC_REVERT_SUFFIX)[..|a|] && b == (b + EXEC_REVERT_SUFFIX)[..|b|];
  }

  predicate NamedFor(n: string, digest: string, phase: ExecPhase) {
    match phase
    case EnsurePhase => EnsureNamed(n, digest)
    case RevertPhase => RevertNamed(n, digest)
  }

  /** A name tells the phase and the digest. */
  lemma NameTells(n: string, digest: string, made: ExecPhase, digest': string, phase: ExecPhase)
    requires IsDigest(digest) && IsDigest(digest') && NamedFor(n, digest, made) && NamedFor(n, digest', phase)
    ensures made == phase && digest == digest'
  {
    match (made, phase) {
      case (EnsurePhase, EnsurePhase) =>
        TailIsUnique(n, digest, digest');
      case (RevertPhase, RevertPhase) =>
        TailIsUnique(n, digest + EXEC_REVERT_SUFFIX, digest' + EXEC_REVERT_SUFFIX);
        SuffixCancels(digest, digest');
      case (EnsurePhase, RevertPhase) =>
        DigestIsNoCleanup(n, digest, digest');
      case (RevertPhase, EnsurePhase) =>
        DigestIsNoCleanup(n, digest', digest);
    }
  }

  /** Whatever succeeded Job of the scenario bears the name, it was made in this run for this phase or
      misleads: never one of another phase, of a run with another ID, or of somebody else. */
  lemma JobTellsRun(env: Env, w: World, s: string, n: string, phase: ExecPhase)
    requires EnvOK(env) && StrongInv(env, w) && s in w.mjs && w.mjs[s].status.currentRun.Some?
    requires n in w.jobs && w.jobs[n].scenario == Some(s) && w.jobs[n].state == Succeeded
    requires DigestTells(env, w.mjs[s].status.currentRun.value.id)
    requires NamedFor(n, env.digest(w.mjs[s].status.currentRun.value.id), phase)
    ensures MadeInRun(w, s, n, phase) <==> !Misleads(w, s, n, phase)
  {
    assert JobOK(env, w, n);
    if w.jobs[n].origin.Exec? {
      var origin := w.jobs[n].origin;
      assert NamedFor(n, env.digest(origin.runID), origin.phase);
      NameTells(n, env.digest(origin.runID), origin.phase, env.digest(w.mjs[s].status.currentRun.value.id), phase);
    }
  }

  lemma ExecTokenNamed(env: Env, w: World, s: string, t: Token)
    requires EnvOK(env) && StrongInv(env, w) && ExecToken(env, w, s, t)
    ensures w.mjs[s].status.currentRun.Some?
    ensures NamedFor(t.ensureName, env.digest(w.mjs[s].status.currentRun.value.id), EnsurePhase)
    ensures NamedFor(t.revertName, env.digest(w.mjs[s].status.currentRun.value.id), RevertPhase)
  {
    var i :| 0 <= i < |Tokens(w, s)| && Tokens(w, s)[i] == t;
    assert StatusOK(env, s, w.mjs[s]);
    assert TokenOK(env, s, w.mjs[s].status.currentRun.value, w.mjs[s].status.activeActions[i]);
  }

  function EnsureOutcome(env: Env, w: World, s: string, t: Token, a: Action): Outcome
    requires s in w.mjs && t.DBExecToken?
  {
    DBExecEnsure(w, RunContextOf(env, s, w.mjs[s].status.currentRun), a, t).outcome
  }

  function RevertOutcome(env: Env, w: World, s: string, t: Token): Outcome
    requires s in w.mjs && t.DBExecToken?
  {
    DBExecRevert(w, RunContextOf(env, s, w.mjs[s].status.currentRun), t).outcome
  }

  /** When a DBExec Ensure reports done although its Job was not made in this run for this phase:
      exactly when a Job that misleads is still there. */
  lemma EnsureAdoptsExactlyMisleading(env: Env, now: World, s: string, t: Token, a: Action)
    requires EnvOK(env) && env.freshReads && Reachable(env, now) && ExecToken(env, now, s, t) && a.dbExec.Some?
    ensures EnsureOutcome(env, now, s, t, a) == Done && !MadeInRun(now, s, t.ensureName, EnsurePhase)
            <==> Misleads(now, s, t.ensureName, EnsurePhase)
  {
    ReachableInv(env, now);
    ExecTokenNamed(env, now, s, t);
    var n := t.ensureName;
    if n in now.jobs && now.jobs[n].scenario == Some(s) && now.jobs[n].state == Succeeded {
      JobTellsRun(env, now, s, n, EnsurePhase);
    }
  }

  lemma RevertAdoptsExactlyMisleading(env: Env, now: World, s: string, t: Token)
    requires EnvOK(env) && env.freshReads && Reachable(env, now) && ExecToken(env, now, s, t) && t.revert != []
    ensures RevertOutcome(env, now, s, t) == Done && !MadeInRun(now, s, t.revertName, RevertPhase)
            <==> Misleads(now, s, t.revertName, RevertPhase)
  {
    ReachableInv(env, now);
    ExecTokenNamed(env, now, s, t);
    var n := t.revertName;
    if n in now.jobs && now.jobs[n].scenario == Some(s) && now.jobs[n].state == Succeeded {
      JobTellsRun(env, now, s, n, RevertPhase);
    }
  }

  /** Nothing misleads when the run's ID was never used before and no live Workload action has the
      name: a done Ensure then rests on a Job of this run and this phase, although finished Jobs of
      earlier runs and of the other phase are still in the cluster. */
  lemma RunScopedEnsure(env: Env, now: World, s: string, t: Token, a: Action)
    requires EnvOK(env) && env.freshReads && Reachable(env, now) && ExecToken(env, now, s, t)
    requires FreshID(now, s) && WorkloadToken(t.ensureName) !in Tokens(now, s)
    requires EnsureOutcome(env, now, s, t, a) == Done
    ensures MadeInRun(now, s, t.ensureName, EnsurePhase)
  {
    EnsureAdoptsExactlyMisleading(env, now, s, t, a);
  }

  /** The same for Revert, when it has statements to run. */
  lemma RunScopedRevert(env: Env, now: World, s: string, t: Token)
    requires EnvOK(env) && env.freshReads && Reachable(env, now) && ExecToken(env, now, s, t) && t.revert != []
    requires FreshID(now, s) && WorkloadToken(t.revertName) !in Tokens(now, s)
    requires RevertOutcome(env, now, s, t) == Done
    ensures MadeInRun(now, s, t.revertName, RevertPhase)
  {
    RevertAdoptsExactlyMisleading(env, now, s, t);
  }

  // ---------- no self-restart ----------

  /** The spec asks for no manual run other than the one given. */
  predicate NoOtherTrigger(spec: Spec, runID: string) {
    spec.trigger.None? || spec.trigger.value.runID == "" || spec.trigger.value.runID == runID
  }

  /** The runs that were started for the scenario, in order. */
  function StartsOf(ls: seq<Label>, s: string): seq<Desired> {
    if ls == [] then []
    else
      var l := ls[|ls| - 1];
      StartsOf(ls[..|ls| - 1], s) + if l.PutStatus? && l.s == s && l.why.Start? then [l.why.desired] else []
  }

  /** The run has been or will be the last: it is over or cannot be asked for once more. */
  ghost predicate Spent(w: World, s: string, runID: string) {
    s in w.mjs ==>
      var mj := w.mjs[s];
      && NoOtherTrigger(mj.spec, runID)
      && if mj.status.currentRun.Some? then
           var run := mj.status.currentRun.value;
           run.id == runID && (!mj.spec.enabled || (run.trigger == Enabled && Expired(run, w.clock)))
         else !mj.spec.enabled && mj.status.lastCompletedRunID == runID
  }

  lemma SpentSubject(env: Env, w: World, l: Label, s: string, runID: string)
    requires env.freshReads && s in env.quiet && Subject(l) == Some(s) && Allowed(env, w, l) && Spent(w, s, runID)
    ensures Spent(Next(w, l), s, runID)
    ensures !(l.PutStatus? && l.why.Start?)
  {
    SubjectShape(w, l);
    if l.PutStatus? {
      assert StrongStatus(env, w, s, l.why, w.mjs[s].status, l.status);
      LeaksAndClock(w, l);
    } else {
      LeaksAndClock(w, l);
    }
  }

  lemma ClockIsMonotone(env: Env, w: World, l: Label)
    requires Allowed(env, w, l)
    ensures w.clock <= Next(w, l).clock
  {
    LeaksAndClock(w, l);
  }

  lemma {:induction false} ClockRuns(env: Env, w: World, before: seq<Label>, after: seq<Label>)
    requires Legal(env, w, after) && before <= after
    ensures After(w, before).clock <= After(w, after).clock
  {
    if |before| == |after| {
      assert before == after;
    } else {
      ClockRuns(env, w, before, after[..|after| - 1]);
      ClockIsMonotone(env, After(w, after[..|after| - 1]), after[|after| - 1]);
    }
  }

  lemma SpentStep(env: Env, w: World, l: Label, s: string, runID: string)
    requires env.freshReads && s in env.quiet && Allowed(env, w, l) && Spent(w, s, runID)
    ensures Spent(Next(w, l), s, runID)
    ensures !(l.PutStatus? && l.s == s && l.why.Start?)
  {
    if Subject(l) == Some(s) {
      SpentSubject(env, w, l, s, runID);
    } else {
      OtherMJsKept(w, l);
      ClockIsMonotone(env, w, l);
    }
  }

  lemma {:induction false} SpentRun(env: Env, w: World, ls: seq<Label>, s: string, runID: string)
    requires env.freshReads && s in env.quiet && Legal(env, w, ls) && Spent(w, s, runID)
    ensures Spent(After(w, ls), s, runID) && StartsOf(ls, s) == []
  {
    if ls != [] {
      var front := ls[..|ls| - 1];
      SpentRun(env, w, front, s, runID);
      SpentStep(env, After(w, front), ls[|ls| - 1], s, runID);
    }
  }

  /** No self-restart: once an enabled run has expired and no other manual trigger stands in the
      spec, then as long as no user writes, whatever crashes and retries happen, no run starts. */
  lemma NoSelfRestart(env: Env, w: World, ls: seq<Label>, s: string)
    requires env.freshReads && s in env.quiet && Legal(env, w, ls)
    requires s in w.mjs && w.mjs[s].status.currentRun.Some?
    requires var run := w.mjs[s].status.currentRun.value;
             run.trigger == Enabled && Expired(run, w.clock) && NoOtherTrigger(w.mjs[s].spec, run.id)
    ensures StartsOf(ls, s) == []
    ensures s in After(w, ls).mjs && After(w, ls).mjs[s].status.currentRun.None? ==> !After(w, ls).mjs[s].spec.enabled
  {
    SpentRun(env, w, ls, s, w.mjs[s].status.currentRun.value.id);
  }

  // ---------- a requested run ----------

  /** The run that the standing trigger asks for. */
  function RequestedRun(spec: Spec): Desired
    requires spec.trigger.Some?
  {
    var t := spec.trigger.value;
    Desired(Manual, t.runID,
            if t.duration.Some? then t.duration.value else if spec.duration.Some? then spec.duration.value else 0)
  }

  /** The manual runs among those started. */
  function ManualStartsOf(ls: seq<Label>, s: string): seq<Desired> {
    if ls == [] then []
    else
      var l := ls[|ls| - 1];
      ManualStartsOf(ls[..|ls| - 1], s) +
      if l.PutStatus? && l.s == s && l.why.Start? && l.why.desired.Desired? && l.why.desired.trigger == Manual
      then [l.why.desired] else []
  }

  /** The request stands; at most the enabled flag has been taken back. */
  ghost predicate Requested(w: World, s: string, spec: Spec) {
    s in w.mjs ==> w.mjs[s].spec == spec || w.mjs[s].spec == spec.(enabled := false)
  }

  lemma RequestedStep(env: Env, w: World, l: Label, s: string, spec: Spec)
    requires env.freshReads && s in env.quiet && Allowed(env, w, l) && Requested(w, s, spec)
    requires spec.trigger.Some? && spec.trigger.value.runID != ""
    ensures if l.PutStatus? && l.s == s && l.why.Start? && l.why.desired.Desired? && l.why.desired.trigger == Manual
            then l.why.desired == RequestedRun(spec) && Spent(Next(w, l), s, spec.trigger.value.runID)
            else Requested(Next(w, l), s, spec)
  {
    if Subject(l) == Some(s) {
      SubjectShape(w, l);
      if l.PutStatus? {
        assert StrongStatus(env, w, s, l.why, w.mjs[s].status, l.status);
      }
    } else {
      OtherMJsKept(w, l);
    }
  }

  lemma SpentStartsNothing(env: Env, w: World, l: Label, s: string, runID: string, ls: seq<Label>)
    requires env.freshReads && s in env.quiet && Allowed(env, w, l) && Spent(w, s, runID)
    ensures ManualStartsOf(ls + [l], s) == ManualStartsOf(ls, s)
  {
    SpentStep(env, w, l, s, runID);
    assert (ls + [l])[..|ls|] == ls;
  }

  /** What `run` asks for is done at most once, whatever is in flight when it is asked for: as long as
      no user writes again, and whatever crashes and retries happen, no manual run starts but the
      requested one, with its ID and duration, and that one not twice. */
  lemma {:induction false} RequestedRunRunsOnce(env: Env, w: World, ls: seq<Label>, s: string)
    requires env.freshReads && s in env.quiet && Legal(env, w, ls) && s in w.mjs
    requires w.mjs[s].spec.trigger.Some? && w.mjs[s].spec.trigger.value.runID != ""
    ensures var spec := w.mjs[s].spec;
            || (ManualStartsOf(ls, s) == [] && Requested(After(w, ls), s, spec))
            || (ManualStartsOf(ls, s) == [RequestedRun(spec)] && Spent(After(w, ls), s, spec.trigger.value.runID))
  {
    if ls != [] {
      var spec, front, l := w.mjs[s].spec, ls[..|ls| - 1], ls[|ls| - 1];
      RequestedRunRunsOnce(env, w, front, s);
      if ManualStartsOf(front, s) == [] {
        RequestedStep(env, After(w, front), l, s, spec);
      } else {
        SpentStep(env, After(w, front), l, s, spec.trigger.value.runID);
        SpentStartsNothing(env, After(w, front), l, s, spec.trigger.value.runID, front);
        assert front + [l] == ls;
      }
    }
  }

  // ---------- disable ----------

  ghost predicate Off(w: World, s: string) {
    s in w.mjs ==> w.mjs[s].spec == DisableSpec(w.mjs[s].spec)
  }

  /** Disable and reset leave the spec off. */
  lemma DisableTurnsOff(w: World, s: string)
    requires s in w.mjs
    ensures Off(Next(w, UserToggle(s, false, None, w.mjs[s].spec.duration)), s)
  {
  }

  lemma OffStep(env: Env, w: World, l: Label, s: string)
    requires env.freshReads && s in env.quiet && Allowed(env, w, l) && Off(w, s)
    ensures Off(Next(w, l), s)
    ensures !(l.PutStatus? && l.s == s && l.why.Start?)
  {
    if Subject(l) == Some(s) {
      SubjectShape(w, l);
      if l.PutStatus? {
        assert StrongStatus(env, w, s, l.why, w.mjs[s].status, l.status);
      }
    } else {
      OtherMJsKept(w, l);
    }
  }

  /** Disable is final: until a user writes again no run starts, and none in flight stays wanted,
      whatever crashes and retries happen. */
  lemma {:induction false} DisableIsFinal(env: Env, w: World, ls: seq<Label>, s: string)
    requires env.freshReads && s in env.quiet && Legal(env, w, ls) && Off(w, s)
    ensures Off(After(w, ls), s) && StartsOf(ls, s) == []
    ensures s in After(w, ls).mjs && After(w, ls).mjs[s].status.currentRun.Some? ==>
              !RunStillWanted(After(w, ls).mjs[s].spec, After(w, ls).mjs[s].status.currentRun.value)
  {
    if ls != [] {
      var front := ls[..|ls| - 1];
      DisableIsFinal(env, w, front, s);
      OffStep(env, After(w, front), ls[|ls| - 1], s);
    }
  }

  // ---------- the sweeper ----------

  lemma MarkedTargetIsLive(env: Env, w: World, d: string)
    requires EnvOK(env) && StrongInv(env, w) && d in w.deployments && d in env.domain && w.deployments[d].scenario.Some?
    ensures w.deployments[d].scenario == Some(env.domain[d]) && Tokens(w, env.domain[d]) != []
  {
    DeploymentCovered(env, w, env.domain[d], d);
    assert DeploymentOK(env, w, d);
  }

  lemma IdleOwnerHasNoTokens(w: World, owner: string)
    requires IdleOwner(w, owner)
    ensures Tokens(w, owner) == []
  {
  }

  lemma SweepSparesTarget(env: Env, w: World, d: string)
    requires EnvOK(env) && StrongInv(env, w) && d in env.domain
    ensures !Allowed(env, w, SweepDeployment(d))
  {
    if d in w.deployments && w.deployments[d].scenario.Some? {
      MarkedTargetIsLive(env, w, d);
      if IdleOwner(w, env.domain[d]) {
        IdleOwnerHasNoTokens(w, env.domain[d]);
      }
    }
  }

  lemma SweepTakesExecOnly(env: Env, w: World, n: string)
    requires EnvOK(env) && StrongInv(env, w) && Allowed(env, w, SweepJob(n))
    ensures w.jobs[n].origin.Exec? && Tokens(w, w.jobs[n].scenario.value) == []
  {
    assert JobOK(env, w, n);
    IdleOwnerHasNoTokens(w, w.jobs[n].scenario.value);
  }

  /** In a cluster the operator has kept, a sweep finds no target Deployment and no Workload Job to
      delete, and never an object that a live token names: at most finished or orphaned exec Jobs. */
  lemma SweepSparesCovered(env: Env, now: World, name: string)
    requires EnvOK(env) && env.freshReads && Reachable(env, now)
    ensures name in env.domain ==> !Allowed(env, now, SweepDeployment(name))
    ensures Allowed(env, now, SweepJob(name)) ==>
              now.jobs[name].origin.Exec? && Tokens(now, now.jobs[name].scenario.value) == []
  {
    ReachableInv(env, now);
    if name in env.domain {
      SweepSparesTarget(env, now, name);
    }
    if Allowed(env, now, SweepJob(name)) {
      SweepTakesExecOnly(env, now, name);
    }
  }

  /** Force-release breaks that: it removes the owner but leaves the scenario label on a target whose
      image is still swapped. The next sweep deletes a Deployment exactly if it bears that label, or
      was to be swept anyway. */
  lemma ForceReleasedTargetIsSwept(env: Env, w: World, s: string, d: string, stamp: string)
    requires Allowed(env, w, DropFinalizer(s, stamp)) && d in w.deployments
    ensures var released := Next(w, DropFinalizer(s, stamp));
            && (Allowed(env, released, SweepDeployment(d)) <==>
                  w.deployments[d].scenario == Some(s) || Allowed(env, w, SweepDeployment(d)))
            && d !in Next(released, SweepDeployment(d)).deployments
  {
    var released := Next(w, DropFinalizer(s, stamp));
    assert forall x | x != s :: (x in released.mjs <==> x in w.mjs) && (x in w.mjs ==> released.mjs[x] == w.mjs[x]);
  }
}
