/** When an expired enabled run is followed by another one although no user writes. */
module Restarts {
  import opened Prelude
  import opened Names
  import opened Api
  import opened Helpers
  import opened Protocol
  import opened Invariants
  import opened Theorems
  import opened Drain
  import opened Passes
  import Steps

  ghost predicate Overdue(w: World, s: string) {
    && s in w.mjs && w.mjs[s].finalizer && w.mjs[s].status.currentRun.Some?
    && w.mjs[s].status.currentRun.value.trigger == Enabled && Expired(w.mjs[s].status.currentRun.value, w.clock)
  }

  /** The spec validates and the resource stays: passes start runs only then. */
  predicate MayStart(w: World, s: string)
    requires s in w.mjs
  {
    ValidActions(w.mjs[s].spec.actions) && !w.mjs[s].deleting
  }

  /** An overdue run without tokens is turned off and closed. */
  lemma CloseFrom(env: Env, w: World, s: string, done: seq<Label>) returns (ls: seq<Label>)
    requires env.freshReads && Legal(env, w, done) && Overdue(After(w, done), s) && Tokens(After(w, done), s) == []
    requires MayStart(After(w, done), s) && PastIsPast(After(w, done), s)
    ensures Legal(env, w, ls) && StartsOf(ls, s) == StartsOf(done, s) && s in After(w, ls).mjs
    ensures PastIsPast(After(w, ls), s)
    ensures var mj, mj' := After(w, done).mjs[s], After(w, ls).mjs[s];
            && mj'.spec == mj.spec.(enabled := false) && !mj'.deleting && mj'.finalizer &&
              mj'.status.activeActions == []
            && mj'.status.currentRun.None? && mj'.status.lastCompletedRunID == mj.status.currentRun.value.id
  {
    var w0 := After(w, done);
    Steps.DisableStep(env, w0, s);
    var l1 := DisableExpired(s);
    LegalSnoc(env, w, done, l1);
    StartsSnoc(done, l1, s);
    ls := FinishFrom(env, w, s, done + [l1]);
  }

  lemma FinishFrom(env: Env, w: World, s: string, done: seq<Label>) returns (ls: seq<Label>)
    requires env.freshReads && Legal(env, w, done) && Overdue(After(w, done), s) && Tokens(After(w, done), s) == []
    requires MayStart(After(w, done), s) && PastIsPast(After(w, done), s)
    requires !After(w, done).mjs[s].spec.enabled
    ensures Legal(env, w, ls) && StartsOf(ls, s) == StartsOf(done, s) && s in After(w, ls).mjs
    ensures PastIsPast(After(w, ls), s)
    ensures var mj, mj' := After(w, done).mjs[s], After(w, ls).mjs[s];
            && mj'.spec == mj.spec && !mj'.deleting && mj'.finalizer && mj'.status.activeActions == []
            && mj'.status.currentRun.None? && mj'.status.lastCompletedRunID == mj.status.currentRun.value.id
  {
    var w0 := After(w, done);
    Steps.FinishStep(env, w0, s);
    var l := Steps.FinishLabel(w0, s);
    LegalSnoc(env, w, done, l);
    StartsSnoc(done, l, s);
    ls := done + [l];
  }

  /** A run that goes on from the one given and starts the run that the trigger asks for. */
  lemma RestartFrom(env: Env, w: World, s: string, done: seq<Label>) returns (ls: seq<Label>)
    requires env.freshReads && Legal(env, w, done) && Overdue(After(w, done), s) && Tokens(After(w, done), s) == []
    requires MayStart(After(w, done), s) && PastIsPast(After(w, done), s)
    requires var mj := After(w, done).mjs[s]; !NoOtherTrigger(mj.spec, mj.status.currentRun.value.id)
    ensures Legal(env, w, ls) && StartsOf(ls, s) == StartsOf(done, s) + [RequestedRun(After(w, done).mjs[s].spec)]
  {
    var closed := CloseFrom(env, w, s, done);
    var w0 := After(w, closed);
    var desired := RequestedRun(w0.mjs[s].spec);
    Steps.StartStep(env, w0, s, desired);
    var l := Steps.StartLabel(w0, s, desired);
    LegalSnoc(env, w, closed, l);
    StartsSnoc(closed, l, s);
    ls := closed + [l];
  }

  lemma StartsSnoc(ls: seq<Label>, l: Label, s: string)
    ensures StartsOf(ls + [l], s)
            == StartsOf(ls, s) + if l.PutStatus? && l.s == s && l.why.Start? then [l.why.desired] else []
  {
    assert (ls + [l])[..|ls|] == ls;
  }

  // ---------- where nothing starts ----------

  ghost predicate Barred(w: World, s: string) {
    s in w.mjs ==> !MayStart(w, s)
  }

  lemma BarredStep(env: Env, w: World, l: Label, s: string)
    requires env.freshReads && s in env.quiet && Allowed(env, w, l) && Barred(w, s)
    ensures Barred(Next(w, l), s) && !(l.PutStatus? && l.s == s && l.why.Start?)
  {
    if Subject(l) == Some(s) {
      SubjectShape(w, l);
      if l.PutStatus? {
        assert StrongStatus(env, w, s, l.why, w.mjs[s].status, l.status);
      } else if s in w.mjs {
        EditedShape(w.mjs[s], l);
      }
    } else {
      OtherMJsKept(w, l);
    }
  }

  /** On an invalid spec, or while the resource is being deleted, no run starts. */
  lemma {:induction false} BarredRun(env: Env, w: World, ls: seq<Label>, s: string)
    requires env.freshReads && s in env.quiet && Legal(env, w, ls) && Barred(w, s)
    ensures Barred(After(w, ls), s) && StartsOf(ls, s) == []
  {
    if ls != [] {
      var front := ls[..|ls| - 1];
      BarredRun(env, w, front, s);
      BarredStep(env, After(w, front), ls[|ls| - 1], s);
    }
  }

  // ---------- clearing foreign Jobs away ----------

  /** No foreign Job sits under the revert name of the tokens from the n-th on. */
  predicate UnblockedFrom(w: World, s: string, n: nat) {
    forall i | n <= i < |Tokens(w, s)| ::
      var t := Tokens(w, s)[i];
      t.DBExecToken? && t.revert != [] ==> NotForeign(w, s, t.revertName)
  }

  /** A Job under a name goes: nothing else changes. */
  lemma GoneClears(w: World, s: string, name: string, n: nat)
    requires n < |Tokens(w, s)| && UnblockedFrom(w, s, n + 1)
    requires Tokens(w, s)[n].DBExecToken? ==> Tokens(w, s)[n].revertName == name
    ensures var w' := Next(w, JobGone(name));
            Tokens(w', s) == Tokens(w, s) && SameRunIn(w, w', s) && UnblockedFrom(w', s, n)
  {
    ClusterSameTokens(w, JobGone(name), s);
    ClusterSameRun(w, JobGone(name), s);
  }

  lemma ClearOne(env: Env, w: World, s: string, done: seq<Label>, n: nat) returns (ls: seq<Label>)
    requires EnvOK(env) && env.freshReads && DrainedSoFar(env, w, done)
    requires n < |Tokens(After(w, done), s)| && UnblockedFrom(After(w, done), s, n + 1)
    ensures DrainedSoFar(env, w, ls) && UnblockedFrom(After(w, ls), s, n)
    ensures SameRunIn(After(w, done), After(w, ls), s) && Tokens(After(w, ls), s) == Tokens(After(w, done), s)
  {
    var now := After(w, done);
    var t := Tokens(now, s)[n];
    if t.DBExecToken? && !NotForeign(now, s, t.revertName) {
      var l := JobGone(t.revertName);
      GoneClears(now, s, t.revertName, n);
      DrainingSnoc(env, w, done, l);
      InvStep(env, now, l);
      ls := done + [l];
    } else {
      ls := done;
      SameRunRefl(now, s);
    }
  }

  lemma SameRunRefl(w: World, s: string)
    ensures SameRunIn(w, w, s)
  {
  }

  lemma SameRunTrans(a: World, b: World, c: World, s: string)
    requires SameRunIn(a, b, s) && SameRunIn(b, c, s)
    ensures SameRunIn(a, c, s)
  {
  }

  lemma UnblockedFromStart(w: World, s: string)
    requires UnblockedFrom(w, s, 0)
    ensures Unblocked(w, s)
  {
  }

  /** A drain from w that has got as far as done. */
  ghost predicate DrainedSoFar(env: Env, w: World, done: seq<Label>)
    requires EnvOK(env)
  {
    DrainingRun(env, w, done) && Inv(env, After(w, done))
  }

  /** The cluster may remove every foreign Job that stands in the way. */
  lemma {:induction false} ClearWay(env: Env, w: World, s: string, done: seq<Label>, n: nat) returns (ls: seq<Label>)
    requires EnvOK(env) && env.freshReads && DrainedSoFar(env, w, done)
    requires n <= |Tokens(After(w, done), s)| && UnblockedFrom(After(w, done), s, n)
    ensures DrainedSoFar(env, w, ls) && UnblockedFrom(After(w, ls), s, 0)
    ensures SameRunIn(After(w, done), After(w, ls), s)
    decreases n
  {
    if n == 0 {
      ls := done;
      SameRunRefl(After(w, done), s);
    } else {
      var one := ClearOne(env, w, s, done, n - 1);
      ls := ClearWay(env, w, s, one, n - 1);
      SameRunTrans(After(w, done), After(w, one), After(w, ls), s);
    }
  }

  // ---------- the exact condition ----------

  ghost predicate MayRestart(env: Env, w: World, s: string) {
    exists ls :: Legal(env, w, ls) && StartsOf(ls, s) != []
  }

  /** A run that drains the scenario, closes its run and starts the one the trigger asks for. */
  lemma RestartFollows(env: Env, w: World, s: string)
    requires EnvOK(env) && env.freshReads && Inv(env, w) && Overdue(w, s) && MayStart(w, s)
    requires !NoOtherTrigger(w.mjs[s].spec, w.mjs[s].status.currentRun.value.id)
    ensures MayRestart(env, w, s)
  {
    assert After(w, []) == w;
    var cleared := ClearWay(env, w, s, [], |Tokens(w, s)|);
    UnblockedFromStart(After(w, cleared), s);
    var drained := DrainOn(env, w, s, cleared);
    InvRun(env, w, drained);
    PastIsPastAt(env, After(w, drained), s);
    var ls := RestartFrom(env, w, s, drained);
    assert Legal(env, w, ls) && StartsOf(ls, s) != [];
  }

  /** When an enabled run is overdue, and although no user writes, some run of the system starts another
      one if and only if another trigger stands in the spec, the spec validates, and the resource is not
      being deleted. */
  lemma RestartsExactlyOnOtherTrigger(env: Env, w: World, s: string)
    requires EnvOK(env) && env.freshReads && Inv(env, w) && s in env.quiet && Overdue(w, s)
    ensures MayRestart(env, w, s) <==>
              !NoOtherTrigger(w.mjs[s].spec, w.mjs[s].status.currentRun.value.id) && MayStart(w, s)
  {
    if NoOtherTrigger(w.mjs[s].spec, w.mjs[s].status.currentRun.value.id) {
      forall ls | Legal(env, w, ls)
        ensures StartsOf(ls, s) == []
      {
        NoSelfRestart(env, w, ls, s);
      }
    } else if !MayStart(w, s) {
      forall ls | Legal(env, w, ls)
        ensures StartsOf(ls, s) == []
      {
        BarredRun(env, w, ls, s);
      }
    } else {
      RestartFollows(env, w, s);
    }
  }
}
