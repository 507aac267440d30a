/** The startup sweep: one look at every labelled Job and Deployment, deleting those whose scenario
    is gone or at rest. The sweep runs once at start; here nobody else acts while it does. */
module Sweepers {
  import opened Prelude
  import opened Names
  import opened Api
  import opened Actions
  import opened Helpers
  import opened Protocol
  import opened UndoLog
  import opened Invariants
  import opened ApiServers
  import opened Theorems

  /** The scenario has a run or tokens, or its phase says that it is at work. */
  predicate AtWork(mj: MaintenanceJob) {
    InFlight(mj) || mj.status.phase in {Activating, Active, Reverting, Degraded}
  }

  /** The scenario that an object is labelled for is gone or not at work. */
  predicate Orphaned(w: World, scenario: Option<string>) {
    scenario.Some? && (scenario.value in w.mjs ==> !AtWork(w.mjs[scenario.value]))
  }

  lemma IdleMeansNotAtWork(w: World, s: string)
    ensures IdleOwner(w, s) <==> Orphaned(w, Some(s))
  {
  }

  function OrphanJobs(w: World): set<string> {
    set n | n in w.jobs && Orphaned(w, w.jobs[n].scenario)
  }

  function OrphanDeployments(w: World): set<string> {
    set d | d in w.deployments && Orphaned(w, w.deployments[d].scenario)
  }

  /** The cluster with deletion requested for the given objects: a Job goes when its Pods have gone. */
  function Swept(w: World, jobs: set<string>, deployments: set<string>): World {
    w.(jobs := map n | n in w.jobs :: if n in jobs then w.jobs[n].(deleting := true) else w.jobs[n],
       deployments := w.deployments - deployments)
  }

  lemma SweptNothing(w: World)
    ensures Swept(w, {}, {}) == w
  {
    assert Swept(w, {}, {}).jobs == w.jobs;
    assert w.deployments - {} == w.deployments;
  }

  lemma SweptOneJob(w: World, jobs: set<string>, n: string)
    requires n in w.jobs
    ensures Next(Swept(w, jobs, {}), SweepJob(n)) == Swept(w, jobs + {n}, {})
  {
    assert Next(Swept(w, jobs, {}), SweepJob(n)).jobs == Swept(w, jobs + {n}, {}).jobs;
  }

  lemma SweptOneDeployment(w: World, jobs: set<string>, ds: set<string>, d: string)
    ensures Next(Swept(w, jobs, ds), SweepDeployment(d)) == Swept(w, jobs, ds + {d})
  {
    assert (w.deployments - ds) - {d} == w.deployments - (ds + {d});
  }

  /** What the operator has kept is not swept: no target Deployment and no Job that a live token
      names, only exec Jobs left by finished or deleted scenarios. */
  lemma OrphansAreExecJobs(env: Env, w: World)
    requires EnvOK(env) && StrongInv(env, w)
    ensures forall n | n in OrphanJobs(w) :: w.jobs[n].origin.Exec? && Tokens(w, w.jobs[n].scenario.value) == []
    ensures OrphanDeployments(w) !! env.domain.Keys
  {
    forall n | n in OrphanJobs(w)
      ensures w.jobs[n].origin.Exec? && Tokens(w, w.jobs[n].scenario.value) == []
    {
      IdleMeansNotAtWork(w, w.jobs[n].scenario.value);
      SweepTakesExecOnly(env, w, n);
    }
    forall d | d in env.domain
      ensures d !in OrphanDeployments(w)
    {
      if d in w.deployments && w.deployments[d].scenario.Some? {
        IdleMeansNotAtWork(w, w.deployments[d].scenario.value);
      }
      SweepSparesTarget(env, w, d);
    }
  }

  // ---------- a sweep beside passes ----------

  /** The code reads the label when it lists and the owner later, and deletes by name: whether it
      deletes a Deployment that was listed at one point when its owner is looked up at another. */
  predicate ListedIsDeleted(listed: World, later: World, d: string)
    requires d in listed.deployments
  {
    d in later.deployments && Orphaned(later, listed.deployments[d].scenario)
  }

  /** When a sweep beside passes deletes a target: exactly if the scenario it belongs to had tokens and
      its mark on the target at the list, and has come to rest by the lookup. What is lost then is the
      restored Deployment. */
  lemma SweepLosesExactlyRestored(env: Env, listed: World, later: World, s: string, d: string)
    requires EnvOK(env) && env.freshReads && Reachable(env, listed) && Follows(env, listed, later)
    requires OwnTarget(env, s, d) && d in listed.deployments && d in later.deployments
    ensures ListedIsDeleted(listed, later, d) <==>
              listed.deployments[d].scenario == Some(s) && (s in later.mjs ==> !AtWork(later.mjs[s]))
    ensures listed.deployments[d].scenario == Some(s) ==> Tokens(listed, s) != []
    ensures ListedIsDeleted(listed, later, d) ==>
              d in env.original && Restored(env.original[d], later.deployments[d])
  {
    ReachableFollows(env, listed, later);
    ReachableInv(env, listed);
    if listed.deployments[d].scenario.Some? {
      MarkedTargetIsLive(env, listed, d);
      if ListedIsDeleted(listed, later, d) {
        RestedIsRestored(env, later, s, d);
      }
    }
  }

  lemma RestedIsRestored(env: Env, w: World, s: string, d: string)
    requires EnvOK(env) && env.freshReads && Reachable(env, w) && Orphaned(w, Some(s))
    requires OwnTarget(env, s, d) && d in w.deployments
    ensures d in env.original && Restored(env.original[d], w.deployments[d])
  {
    DurableRestoration(env, w, s);
  }

  class Sweeper {
    const api: ApiServer

    constructor (api: ApiServer)
      ensures this.api == api
    {
      this.api := api;
    }

    /** Is the owner gone or at rest? Unknown when the lookup fails. */
    method OwnerAtRest(owner: string) returns (idle: bool, failed: bool)
      modifies api`faults
      ensures !failed ==> (idle <==> Orphaned(api.world, Some(owner)))
      ensures failed ==> !idle
    {
      var fs;
      fs, failed := api.GetHolder(owner);
      if failed {
        idle := false;
      } else if fs.None? {
        idle := true;
      } else {
        var st := fs.value.status;
        idle := (st.phase == NoPhase || st.phase == Idle) && |st.activeActions| == 0 && st.currentRun.None?;
      }
    }

    /** One listed Job; jobs: those deleted since w. */
    method SweepOneJob(n: string, ghost w: World, ghost jobs: set<string>)
        returns (calm: bool, ghost swept: set<string>)
      requires api.Valid() && n in w.jobs && w.jobs[n].scenario.Some?
      requires jobs <= OrphanJobs(w) && n !in jobs && api.world == Swept(w, jobs, {})
      modifies api`world, api`trace, api`faults
      ensures api.Valid() && old(api.trace) <= api.trace
      ensures jobs <= swept <= jobs + {n} && swept <= OrphanJobs(w) && api.world == Swept(w, swept, {})
      ensures calm ==> (n in swept <==> n in OrphanJobs(w))
    {
      swept := jobs;
      var job := api.world.jobs[n];
      var idle, failed := OwnerAtRest(job.scenario.value);
      calm := !failed;
      if idle {
        ghost var before := api.world;
        calm := api.WriteJob(n, job.(deleting := true));
        SweptOneJob(w, jobs, n);
        if calm || api.world != before {
          api.Log(SweepJob(n), before);
          swept := jobs + {n};
        }
      }
    }

    method SweepOneDeployment(d: string, ghost w: World, ghost jobs: set<string>, ghost deployments: set<string>)
        returns (calm: bool, ghost swept: set<string>)
      requires api.Valid() && d in w.deployments && w.deployments[d].scenario.Some?
      requires deployments <= OrphanDeployments(w) && d !in deployments && api.world == Swept(w, jobs, deployments)
      modifies api`world, api`trace, api`faults
      ensures api.Valid() && old(api.trace) <= api.trace
      ensures deployments <= swept <= deployments + {d} && swept <= OrphanDeployments(w) &&
              api.world == Swept(w, jobs, swept)
      ensures calm ==> (d in swept <==> d in OrphanDeployments(w))
    {
      swept := deployments;
      var idle, failed := OwnerAtRest(api.world.deployments[d].scenario.value);
      calm := !failed;
      if idle {
        ghost var before := api.world;
        calm := api.DeleteDeployment(d);
        SweptOneDeployment(w, jobs, deployments, d);
        if calm || api.world != before {
          api.Log(SweepDeployment(d), before);
          swept := deployments + {d};
        }
      }
    }

    method SweepJobs() returns (listed: bool, calm: bool, ghost jobs: set<string>)
      requires api.Valid()
      modifies api`world, api`trace, api`faults
      ensures api.Valid() && old(api.trace) <= api.trace
      ensures jobs <= OrphanJobs(old(api.world)) && api.world == Swept(old(api.world), jobs, {})
      ensures listed && calm ==> jobs == OrphanJobs(old(api.world))
    {
      ghost var w := api.world;
      jobs, calm := {}, true;
      SweptNothing(w);
      var names;
      names, listed := api.ListJobs();
      if !listed {
        return;
      }
      ghost var done: set<string> := {};
      for i := 0 to |names|
        invariant api.Valid() && old(api.trace) <= api.trace
        invariant forall n :: n in done <==> n in names[..i]
        invariant jobs <= done && jobs <= OrphanJobs(w) && api.world == Swept(w, jobs, {})
        invariant calm ==> OrphanJobs(w) * done <= jobs
      {
        var ok;
        ok, jobs := SweepOneJob(names[i], w, jobs);
        calm := calm && ok;
        done := done + {names[i]};
      }
      assert names[..|names|] == names;
      assert OrphanJobs(w) <= done;
    }

    method SweepDeployments(ghost w: World, ghost jobs: set<string>)
        returns (listed: bool, calm: bool, ghost deployments: set<string>)
      requires api.Valid() && api.world == Swept(w, jobs, {})
      modifies api`world, api`trace, api`faults
      ensures api.Valid() && old(api.trace) <= api.trace
      ensures deployments <= OrphanDeployments(w) && api.world == Swept(w, jobs, deployments)
      ensures listed && calm ==> deployments == OrphanDeployments(w)
    {
      deployments, calm := {}, true;
      var names;
      names, listed := api.ListDeployments();
      if !listed {
        return;
      }
      ghost var done: set<string> := {};
      for i := 0 to |names|
        invariant api.Valid() && old(api.trace) <= api.trace
        invariant forall d :: d in done <==> d in names[..i]
        invariant deployments <= done && deployments <= OrphanDeployments(w) && api.world == Swept(w, jobs, deployments)
        invariant calm ==> OrphanDeployments(w) * done <= deployments
      {
        var ok;
        ok, deployments := SweepOneDeployment(names[i], w, jobs, deployments);
        calm := calm && ok;
        done := done + {names[i]};
      }
      assert names[..|names|] == names;
      assert OrphanDeployments(w) <= done;
    }

    /** One sweep. When no call fails it requests deletion of exactly the labelled objects whose
        owner is missing or at rest; failures only leave some of them. In a cluster the operator has
        kept, those are exec Jobs and no target. */
    method Start() returns (listed: bool, calm: bool, ghost jobs: set<string>, ghost deployments: set<string>)
      requires api.Valid()
      modifies api`world, api`trace, api`faults
      ensures api.Valid() && old(api.trace) <= api.trace && api.world == Swept(old(api.world), jobs, deployments)
      ensures jobs <= OrphanJobs(old(api.world)) && deployments <= OrphanDeployments(old(api.world))
      ensures listed && calm ==> jobs == OrphanJobs(old(api.world)) && deployments == OrphanDeployments(old(api.world))
      ensures api.env.freshReads ==>
                && deployments !! api.env.domain.Keys
                && forall n | n in jobs ::
                     old(api.world).jobs[n].origin.Exec? && Tokens(old(api.world),
                                                                   old(api.world).jobs[n].scenario.value) == []
    {
      ghost var w := api.world;
      api.Keeps();
      if api.env.freshReads {
        OrphansAreExecJobs(api.env, w);
      }
      deployments := {};
      listed, calm, jobs := SweepJobs();
      if !listed {
        return;
      }
      var quiet;
      listed, quiet, deployments := SweepDeployments(w, jobs);
      calm := calm && quiet;
    }
  }
}
