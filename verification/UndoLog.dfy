/** One Deployment and the tokens recorded against it, in order: the undo log. Only the newest
    token is ever undone; the invariant says that undoing them all restores the original. */
module UndoLog {
  import opened Prelude
  import opened Api
  import opened Actions
  import opened Protocol

  // ---------- reading the log, newest token last ----------

  predicate OnContainer(t: Token, d: string, c: string) {
    t.DeployImageToken? && t.name == d && t.container == c
  }

  predicate ScalesIt(t: Token, d: string) {
    t.ScaleToken? && t.name == d
  }

  /** The bad images the tokens put on a container. */
  function BadImages(ts: seq<Token>, d: string, c: string): set<string> {
    if ts == [] then {}
    else
      var t := ts[|ts| - 1];
      BadImages(ts[..|ts| - 1], d, c) + (if OnContainer(t, d, c) then {t.badImage} else {})
  }

  /** The replica count the oldest Scale token on the Deployment remembers. */
  function OldestReplicas(ts: seq<Token>, d: string): Option<int> {
    if ts == [] then None
    else
      var older := OldestReplicas(ts[..|ts| - 1], d);
      var t := ts[|ts| - 1];
      if older.Some? then older else if ScalesIt(t, d) then Some(t.previousReplicas) else None
  }

  predicate Touched(ts: seq<Token>, d: string) {
    ts != [] && (Targets(ts[|ts| - 1], d) || Touched(ts[..|ts| - 1], d))
  }

  /** Every token's good image is the original one or the bad image of an earlier token. */
  predicate GoodImagesOK(ts: seq<Token>, d: string, o: Deployment) {
    ts == [] ||
    (var t, older := ts[|ts| - 1], ts[..|ts| - 1];
     && GoodImagesOK(older, d, o)
     && (t.DeployImageToken? && t.name == d ==>
           t.goodImage in {ImageOf(o.containers, t.container)} + BadImages(older, d, t.container)))
  }

  // ---------- the invariant ----------

  predicate ImageOK(o: Deployment, ts: seq<Token>, d: string, i: nat, image: string)
    requires i < |o.containers|
  {
    var c := o.containers[i];
    image == c.image || (ContainerIndex(o.containers, c.name) == i && image in BadImages(ts, d, c.name))
  }

  predicate SameNames(a: seq<Container>, b: seq<Container>) {
    |a| == |b| && forall i | 0 <= i < |a| :: a[i].name == b[i].name
  }

  predicate ImagesOK(o: Deployment, cs: seq<Container>, ts: seq<Token>, d: string) {
    && SameNames(cs, o.containers)
    && forall i | 0 <= i < |cs| :: ImageOK(o, ts, d, i, cs[i].image)
  }

  predicate ReplicasOK(o: Deployment, dep: Deployment, ts: seq<Token>, d: string) {
    var oldest := OldestReplicas(ts, d);
    Replicas(o) == if oldest.Some? then oldest.value else Replicas(dep)
  }

  predicate KnownGoodOK(o: Deployment, dep: Deployment, ts: seq<Token>, d: string) {
    forall c | c in dep.knownGood ::
      && BadImages(ts, d, c) != {}
      && dep.knownGood[c] in {ImageOf(o.containers, c)} + BadImages(ts, d, c)
  }

  predicate MarkersOK(dep: Deployment, ts: seq<Token>, s: string, d: string) {
    && (dep.scenario.Some? ==> dep.scenario.value == s && dep.knownGood != map[])
    && (dep.heldBy != "" ==> HeldFor(dep, s) && Touched(ts, d))
  }

  /** o: the original; dep: what is live; ts: the tokens of the one scenario s that may target d. */
  predicate DepInv(o: Deployment, dep: Deployment, ts: seq<Token>, s: string, d: string) {
    && ImagesOK(o, dep.containers, ts, d)
    && ReplicasOK(o, dep, ts, d)
    && GoodImagesOK(ts, d, o)
    && KnownGoodOK(o, dep, ts, d)
    && MarkersOK(dep, ts, s, d)
  }

  /** Original replicas and images, and no marker left. */
  predicate Restored(o: Deployment, dep: Deployment) {
    && Replicas(dep) == Replicas(o) && dep.containers == o.containers
    && dep.heldBy == "" && dep.knownGood == map[] && dep.scenario.None?
  }

  lemma EmptyLogMeansRestored(o: Deployment, dep: Deployment, s: string, d: string)
    requires DepInv(o, dep, [], s, d)
    ensures Restored(o, dep)
  {
    assert forall i | 0 <= i < |o.containers| :: ImageOK(o, [], d, i, dep.containers[i].image);
    assert forall c | c in dep.knownGood :: false;
  }

  lemma RestoredIsInvariantAtRest(o: Deployment, dep: Deployment, s: string, d: string)
    requires Restored(o, dep)
    ensures DepInv(o, dep, [], s, d)
  {
  }

  // ---------- facts about the log ----------

  lemma {:induction false} BadImageCounts(ts: seq<Token>, i: nat, d: string, c: string)
    requires i < |ts| && OnContainer(ts[i], d, c)
    ensures ts[i].badImage in BadImages(ts, d, c)
  {
    if i < |ts| - 1 {
      BadImageCounts(ts[..|ts| - 1], i, d, c);
    }
  }

  lemma {:induction false} GoodImageCounts(ts: seq<Token>, i: nat, d: string, o: Deployment)
    requires i < |ts| && ts[i].DeployImageToken? && ts[i].name == d && GoodImagesOK(ts, d, o)
    ensures ts[i].goodImage in {ImageOf(o.containers, ts[i].container)} + BadImages(ts, d, ts[i].container)
  {
    if i < |ts| - 1 {
      GoodImageCounts(ts[..|ts| - 1], i, d, o);
    }
  }

  lemma {:induction false} ScaleCounts(ts: seq<Token>, i: nat, d: string)
    requires i < |ts| && ScalesIt(ts[i], d)
    ensures OldestReplicas(ts, d).Some?
  {
    if i < |ts| - 1 {
      ScaleCounts(ts[..|ts| - 1], i, d);
    }
  }

  lemma {:induction false} TargetCounts(ts: seq<Token>, i: nat, d: string)
    requires i < |ts| && Targets(ts[i], d)
    ensures Touched(ts, d)
  {
    if i < |ts| - 1 {
      TargetCounts(ts[..|ts| - 1], i, d);
    }
  }

  /** A Deployment whose marker or field differs from the original is named by a token. */
  lemma {:induction false} TouchedNamesToken(ts: seq<Token>, d: string) returns (i: nat)
    requires Touched(ts, d)
    ensures i < |ts| && Targets(ts[i], d)
  {
    if Targets(ts[|ts| - 1], d) {
      i := |ts| - 1;
    } else {
      i := TouchedNamesToken(ts[..|ts| - 1], d);
    }
  }

  lemma {:induction false} BadImageNamesToken(ts: seq<Token>, d: string, c: string, image: string) returns (i: nat)
    requires image in BadImages(ts, d, c)
    ensures i < |ts| && OnContainer(ts[i], d, c) && ts[i].badImage == image
  {
    var t := ts[|ts| - 1];
    if OnContainer(t, d, c) && t.badImage == image {
      i := |ts| - 1;
    } else {
      i := BadImageNamesToken(ts[..|ts| - 1], d, c, image);
    }
  }

  lemma {:induction false} OldestNamesToken(ts: seq<Token>, d: string) returns (i: nat)
    requires OldestReplicas(ts, d).Some?
    ensures i < |ts| && ScalesIt(ts[i], d) && ts[i].previousReplicas == OldestReplicas(ts, d).value
  {
    if OldestReplicas(ts[..|ts| - 1], d).Some? {
      i := OldestNamesToken(ts[..|ts| - 1], d);
    } else {
      i := |ts| - 1;
    }
  }

  // ---------- each step keeps the invariant ----------

  lemma SameNamesSameIndex(a: seq<Container>, b: seq<Container>, c: string)
    requires SameNames(a, b)
    ensures ContainerIndex(a, c) == ContainerIndex(b, c)
  {
    var i, j := ContainerIndex(a, c), ContainerIndex(b, c);
    if 0 <= i { assert b[i].name == c; }
    if 0 <= j { assert a[j].name == c; }
  }

  lemma LiveImageOK(o: Deployment, cs: seq<Container>, ts: seq<Token>, d: string, c: string)
    requires ImagesOK(o, cs, ts, d) && ContainerIndex(cs, c) >= 0
    ensures ImageOf(cs, c) in {ImageOf(o.containers, c)} + BadImages(ts, d, c)
  {
    SameNamesSameIndex(cs, o.containers, c);
    var i := ContainerIndex(cs, c);
    assert ImageOK(o, ts, d, i, cs[i].image);
  }

  /** Recording the next token. */
  lemma RecordKeeps(o: Deployment, dep: Deployment, ts: seq<Token>, s: string, d: string, w: World, rc: RunContext,
                    a: Action, t: Token)
    requires DepInv(o, dep, ts, s, d)
    requires d in w.deployments && w.deployments[d] == dep && PlanAgrees(w, rc, a, t)
    requires a.deployImage.Some? && a.deployImage.value.target == d && a.deployImage.value.knownGoodImage != "" ==>
               a.deployImage.value.knownGoodImage == ImageOf(o.containers, a.deployImage.value.container)
    ensures DepInv(o, dep, ts + [t], s, d)
  {
    var ts' := ts + [t];
    assert ts'[..|ts|] == ts;
    assert forall c :: BadImages(ts, d, c) <= BadImages(ts', d, c);
    assert forall i | 0 <= i < |dep.containers| :: ImageOK(o, ts, d, i, dep.containers[i].image);
    if t.DeployImageToken? && t.name == d {
      LiveImageOK(o, dep.containers, ts, d, t.container);
    }
  }

  /** Dropping the newest token, once nothing of its injection is left. */
  lemma DropKeeps(o: Deployment, dep: Deployment, ts: seq<Token>, s: string, d: string, w: World)
    requires ts != [] && DepInv(o, dep, ts, s, d)
    requires d in w.deployments && w.deployments[d] == dep && Undone(w, s, ts[|ts| - 1])
    ensures DepInv(o, dep, ts[..|ts| - 1], s, d)
  {
    var t, older := ts[|ts| - 1], ts[..|ts| - 1];
    if t.DeployImageToken? && t.name == d {
      SameNamesSameIndex(dep.containers, o.containers, t.container);
      forall i | 0 <= i < |dep.containers|
        ensures ImageOK(o, older, d, i, dep.containers[i].image)
      {
        assert ImageOK(o, ts, d, i, dep.containers[i].image);
      }
    } else {
      assert forall i | 0 <= i < |dep.containers| :: ImageOK(o, ts, d, i, dep.containers[i].image);
    }
  }

  lemma SetImageKeeps(o: Deployment, cs: seq<Container>, ts: seq<Token>, d: string, c: string, image: string)
    requires ImagesOK(o, cs, ts, d) && ContainerIndex(cs, c) >= 0
    requires image in {ImageOf(o.containers, c)} + BadImages(ts, d, c)
    ensures ImagesOK(o, SetImage(cs, ContainerIndex(cs, c), image), ts, d)
  {
    SameNamesSameIndex(cs, o.containers, c);
    var cs' := SetImage(cs, ContainerIndex(cs, c), image);
    forall i | 0 <= i < |cs'|
      ensures ImageOK(o, ts, d, i, cs'[i].image)
    {
      assert ImageOK(o, ts, d, i, cs[i].image);
    }
  }

  lemma ScaleEnsureKeeps(o: Deployment, w: World, ts: seq<Token>, i: nat, s: string, d: string, rc: RunContext,
                         a: Action)
    requires d in w.deployments && DepInv(o, w.deployments[d], ts, s, d) && rc.scenario == s
    requires i < |ts| && ScalesIt(ts[i], d)
    ensures DepInv(o, ScaleEnsure(w, rc, a, ts[i]).world.deployments[d], ts, s, d)
  {
    ScaleCounts(ts, i, d);
    TargetCounts(ts, i, d);
    assert s + "/" <= Stamp(rc);
  }

  lemma ScaleRevertKeeps(o: Deployment, w: World, ts: seq<Token>, i: nat, s: string, d: string, rc: RunContext)
    requires d in w.deployments && DepInv(o, w.deployments[d], ts, s, d) && rc.scenario == s
    requires i < |ts| && ScalesIt(ts[i], d)
    ensures DepInv(o, ScaleRevert(w, rc, ts[i]).world.deployments[d], ts, s, d)
  {
    ScaleCounts(ts, i, d);
  }

  lemma DeployImageEnsureKeeps(o: Deployment, w: World, ts: seq<Token>, i: nat, s: string, d: string, rc: RunContext,
                               a: Action, settled: bool)
    requires d in w.deployments && DepInv(o, w.deployments[d], ts, s, d) && rc.scenario == s
    requires i < |ts| && ts[i].DeployImageToken? && ts[i].name == d
    ensures DepInv(o, DeployImageEnsure(w, rc, a, ts[i], settled).world.deployments[d], ts, s, d)
  {
    var dep, dep' := w.deployments[d], DeployImageEnsure(w, rc, a, ts[i], settled).world.deployments[d];
    if dep' != dep {
      BadImageCounts(ts, i, d, ts[i].container);
      GoodImageCounts(ts, i, d, o);
      TargetCounts(ts, i, d);
      SetImageKeeps(o, dep.containers, ts, d, ts[i].container, ts[i].badImage);
      assert s + "/" <= Stamp(rc);
      assert ts[i].container in dep'.knownGood;
    }
  }

  lemma DeployImageRevertKeeps(o: Deployment, w: World, ts: seq<Token>, i: nat, s: string, d: string, rc: RunContext)
    requires d in w.deployments && DepInv(o, w.deployments[d], ts, s, d) && rc.scenario == s
    requires i < |ts| && ts[i].DeployImageToken? && ts[i].name == d
    ensures DepInv(o, DeployImageRevert(w, rc, ts[i]).world.deployments[d], ts, s, d)
  {
    var dep := w.deployments[d];
    GoodImageCounts(ts, i, d, o);
    if ContainerIndex(dep.containers, ts[i].container) >= 0 {
      SetImageKeeps(o, dep.containers, ts, d, ts[i].container, ts[i].goodImage);
    }
  }
}
