/** The Kubernetes API as the operator sees it: reads that may be stale, writes guarded by the
    resource version, calls that may fail before or after they took effect, and everybody else
    acting in between. The ghost trace records every step as a label of the protocol. */
module ApiServers {
  import opened Prelude
  import opened Names
  import opened Api
  import opened Actions
  import opened Helpers
  import opened Protocol
  import opened UndoLog
  import opened Invariants
  import opened Interference

  class ApiServer {
    const env: Env
    var world: World
    ghost const start: World
    ghost var trace: seq<Label>
    /** How many calls have failed, conflicts included. A pass without a new fault is calm. */
    ghost var faults: nat

    constructor (env: Env, world: World)
      requires EnvOK(env) && Inv(env, world)
      ensures Valid() && this.env == env && this.world == world && trace == []
    {
      this.env := env;
      this.world := world;
      start := world;
      trace := [];
      faults := 0;
    }

    /** The cluster is where the trace of legal steps leads. */
    ghost predicate Valid()
      reads this
    {
      EnvOK(env) && Inv(env, start) && Legal(env, start, trace) && world == After(start, trace)
    }

    lemma Keeps()
      requires Valid()
      ensures Inv(env, world)
    {
      InvRun(env, start, trace);
    }

    /** A held copy of the resource of s: of its current version only if it is its current content. */
    ghost predicate Knows(s: string, fs: MaintenanceJob)
      reads this
    {
      fs.version <= world.revision && (s in world.mjs && world.mjs[s].version == fs.version ==> world.mjs[s] == fs)
    }

    // ---------- everybody else ----------

    /** Any number of steps of others; the body is one way it can go. */
    method Others(s: string)
      requires Valid()
      modifies this`world, this`trace
      ensures Valid() && old(trace) <= trace
      ensures forall i | |old(trace)| <= i < |trace| :: Rely(s, trace[i])
    {
    }

    method Interleave(s: string)
      requires Valid() && ScenarioName(env, s)
      modifies this`world, this`trace
      ensures Valid() && old(trace) <= trace && Own(s, trace) == old(Own(s, trace))
      ensures Steady(env, s, old(world), world)
    {
      ghost var before := trace;
      Others(s);
      SteadyRun(env, start, before, trace, s);
    }

    ghost method Log(l: Label, before: World)
      requires EnvOK(env) && Inv(env, start) && Legal(env, start, trace) && before == After(start, trace)
      requires Allowed(env, before, l) && world == Next(before, l)
      modifies this`trace
      ensures Valid() && trace == old(trace) + [l]
    {
      LegalSnoc(env, start, trace, l);
      trace := trace + [l];
    }

    // ---------- reads ----------

    /** A fact the model leaves open: nothing is promised. */
    method Undetermined() returns (answer: bool) {
      answer := false;
    }

    /** Whether a call fails is left open too, but a failure is a fault. */
    method Fails() returns (failed: bool)
      modifies this`faults
      ensures faults == old(faults) + if failed then 1 else 0
    {
      failed := false;
    }

    /** A freshly drawn identifier; nothing else is promised. */
    method NewUUID() returns (id: string)
      ensures id != ""
    {
      id := "00000000-0000-4000-8000-000000000000";
    }

    method Now(s: string) returns (now: Time)
      requires Valid() && ScenarioName(env, s)
      modifies this`world, this`trace
      ensures Valid() && old(trace) <= trace && Own(s, trace) == old(Own(s, trace))
      ensures Steady(env, s, old(world), world) && now == world.clock
    {
      Interleave(s);
      now := world.clock;
    }

    /** The copy may be an earlier version of the same incarnation, unless reads are fresh. */
    method GetMaintenanceJob(s: string) returns (fs: Option<MaintenanceJob>, err: Option<Problem>)
      requires Valid() && ScenarioName(env, s)
      modifies this`world, this`trace, this`faults
      ensures Valid() && old(trace) <= trace && Own(s, trace) == old(Own(s, trace))
      ensures Steady(env, s, old(world), world)
      ensures faults == old(faults) + if err.Some? then 1 else 0
      ensures fs.None? && err.None? && env.freshReads ==> s !in world.mjs
      ensures fs.Some? ==>
                && err.None? && Knows(s, fs.value) && s in world.mjs
                && (fs.value.finalizer ==> world.mjs[s].finalizer) && (fs.value.deleting ==> world.mjs[s].deleting)
                && (env.freshReads ==> fs.value == world.mjs[s])
    {
      Interleave(s);
      Keeps();
      var failed := Fails();
      if failed {
        return None, Some(ApiFailure);
      }
      err := None;
      if s in world.mjs {
        assert WeakMJ(world, s);
        fs := Some(world.mjs[s]);
      } else {
        fs := None;
      }
    }

    // ---------- guarded writes of the resource ----------

    /** The label's write, if the held version is still current. On an error other than a conflict
        the write may have taken effect all the same. */
    method Update(s: string, held: MaintenanceJob, l: Label)
        returns (err: Option<Problem>, stored: Option<MaintenanceJob>)
      requires Valid() && ScenarioName(env, s) && Subject(l) == Some(s) && Operator(l) == Some(s)
      requires Knows(s, held)
      requires StaysAllowed(s, held, l, world)
      modifies this`world, this`trace, this`faults
      ensures Valid() && old(trace) <= trace
      ensures faults == old(faults) + if err.Some? then 1 else 0
      ensures Answered(s, held, l, old(world), old(trace), err)
      ensures err.None? ==> stored == if s in world.mjs then Some(world.mjs[s]) else None
    {
      Interleave(s);
      stored := None;
      if s !in world.mjs || world.mjs[s].version != held.version {
        faults := faults + 1;
        return if s in world.mjs then Some(Conflict) else Some(TargetMissing), None;
      }
      Keeps();
      Commit(s, held, l, old(world));
      err := None;
      stored := if s in world.mjs then Some(world.mjs[s]) else None;
    }

    /** The answer to a guarded write, since the given world and trace: written, or refused for a conflict,
        or failed, before or after it took effect. */
    ghost predicate Answered(s: string, held: MaintenanceJob, l: Label, earlier: World, before: seq<Label>,
                             err: Option<Problem>)
      reads this
    {
      var refused := Steady(env, s, earlier, world) && Own(s, trace) == Own(s, before);
      var written := WroteAfterOthers(s, held, l, earlier) && Own(s, trace) == Own(s, before) + [l];
      && (err == Some(Conflict) ==> refused)
      && (err.Some? ==> refused || written)
      && (err.None? ==> written && |before| < |trace| && trace[|trace| - 1] == l)
    }

    /** However others act, the label may be written as long as the held copy is current. */
    ghost predicate StaysAllowed(s: string, held: MaintenanceJob, l: Label, w: World)
      reads this
    {
      EnvOK(env) &&
      forall w' | Inv(env, w') && Steady(env, s, w, w') && s in w'.mjs && w'.mjs[s] == held :: Allowed(env, w', l)
    }

    /** The write itself, on the version held. */
    method Commit(s: string, held: MaintenanceJob, l: Label, ghost earlier: World)
      requires Valid() && s in world.mjs && world.mjs[s] == held && Operator(l) == Some(s)
      requires Steady(env, s, earlier, world) && Allowed(env, world, l)
      modifies this`world, this`trace
      ensures Valid() && trace == old(trace) + [l] && WroteAfterOthers(s, held, l, earlier)
      ensures Own(s, trace) == old(Own(s, trace)) + [l]
    {
      ghost var before := world;
      world := Next(world, l);
      Log(l, before);
      OwnSnoc(s, old(trace), l);
    }

    lemma OwnSnoc(s: string, ls: seq<Label>, l: Label)
      ensures Own(s, ls + [l]) == Own(s, ls) + (if Operator(l) == Some(s) then [l] else [])
    {
      assert (ls + [l])[..|ls|] == ls;
    }

    /** Others acted, found or left the held copy current, and then the label was written. */
    ghost predicate WroteAfterOthers(s: string, held: MaintenanceJob, l: Label, earlier: World)
      reads this
    {
      exists mid :: Steady(env, s, earlier, mid) && s in mid.mjs && mid.mjs[s] == held && Allowed(env, mid, l) &&
        world == Next(mid, l)
    }

    /** Adds entries to the leak ConfigMap, guarded by the ConfigMap's own version. */
    method AppendLeaks(s: string, entries: map<string, Token>) returns (err: Option<Problem>)
      requires Valid() && ScenarioName(env, s) && forall k | k in entries :: s + "." <= k
      modifies this`world, this`trace, this`faults
      ensures Valid() && old(trace) <= trace && faults == old(faults) + if err.Some? then 1 else 0
      ensures VersionsAdvance(s, old(world), world) && ResourceSteady(env, s, old(world), world)
      ensures err.None? ==>
                && (forall k | k in entries :: k in world.leaked && world.leaked[k] == entries[k])
                && Own(s, trace) == old(Own(s, trace)) + [Leak(s, entries)]
      ensures err == Some(Conflict) ==> Own(s, trace) == old(Own(s, trace))
      ensures err.Some? ==> Own(s, trace) in {old(Own(s, trace)), old(Own(s, trace)) + [Leak(s, entries)]}
    {
      Interleave(s);
      ghost var before := world;
      world := world.(leaked := world.leaked + entries);
      Log(Leak(s, entries), before);
      err := None;
    }

    // ---------- the objects of the actions ----------

    method GetDeployment(name: string) returns (dep: Option<Deployment>, failed: bool)
      modifies this`faults
      ensures faults == old(faults) + if failed then 1 else 0
      ensures !failed ==> dep == if name in world.deployments then Some(world.deployments[name]) else None
    {
      failed := Fails();
      dep := if name in world.deployments then Some(world.deployments[name]) else None;
    }

    method GetJob(name: string) returns (job: Option<Job>, failed: bool)
      modifies this`faults
      ensures faults == old(faults) + if failed then 1 else 0
      ensures !failed ==> job == if name in world.jobs then Some(world.jobs[name]) else None
    {
      failed := Fails();
      job := if name in world.jobs then Some(world.jobs[name]) else None;
    }

    method GetChaos(key: ChaosKey) returns (obj: Option<Chaos>, failed: bool)
      modifies this`faults
      ensures faults == old(faults) + if failed then 1 else 0
      ensures !failed ==> obj == if key in world.chaos then Some(world.chaos[key]) else None
    {
      failed := Fails();
      obj := if key in world.chaos then Some(world.chaos[key]) else None;
    }

    method GetHolder(name: string) returns (mj: Option<MaintenanceJob>, failed: bool)
      modifies this`faults
      ensures faults == old(faults) + if failed then 1 else 0
      ensures !failed ==> mj == if name in world.mjs then Some(world.mjs[name]) else None
    {
      failed := Fails();
      mj := if name in world.mjs then Some(world.mjs[name]) else None;
    }

    method PatchDeployment(name: string, dep: Deployment) returns (ok: bool)
      modifies this`world, this`faults
      ensures faults == old(faults) + if ok then 0 else 1
      ensures ok ==> world == PutDeployment(old(world), name, dep)
      ensures world == old(world) || world == PutDeployment(old(world), name, dep)
    {
      world := PutDeployment(world, name, dep);
      ok := true;
    }

    /** Creates the Job, or replaces it by the same Job marked as being deleted. */
    method WriteJob(name: string, job: Job) returns (ok: bool)
      modifies this`world, this`faults
      ensures faults == old(faults) + if ok then 0 else 1
      ensures ok ==> world == PutJob(old(world), name, job)
      ensures world == old(world) || world == PutJob(old(world), name, job)
    {
      world := PutJob(world, name, job);
      ok := true;
    }

    method WriteChaos(key: ChaosKey, obj: Chaos) returns (ok: bool)
      modifies this`world, this`faults
      ensures faults == old(faults) + if ok then 0 else 1
      ensures ok ==> world == old(world).(chaos := old(world).chaos[key := obj])
      ensures world == old(world) || world == old(world).(chaos := old(world).chaos[key := obj])
    {
      world := world.(chaos := world.chaos[key := obj]);
      ok := true;
    }

    method DeleteDeployment(name: string) returns (ok: bool)
      modifies this`world, this`faults
      ensures faults == old(faults) + if ok then 0 else 1
      ensures ok ==> world == Next(old(world), SweepDeployment(name))
      ensures world == old(world) || world == Next(old(world), SweepDeployment(name))
    {
      world := world.(deployments := world.deployments - {name});
      ok := true;
    }

    // ---------- lists by scenario label ----------

    /** Every Job with the label, once. */
    method ListJobs() returns (names: seq<string>, ok: bool)
      ensures forall i | 0 <= i < |names| :: names[i] in world.jobs && world.jobs[names[i]].scenario.Some?
      ensures forall i, j | 0 <= i < j < |names| :: names[i] != names[j]
      ensures ok ==> forall n | n in world.jobs && world.jobs[n].scenario.Some? :: n in names
    {
      var rest := set n | n in world.jobs && world.jobs[n].scenario.Some?;
      names := Enumerate(rest);
      ok := true;
    }

    method ListDeployments() returns (names: seq<string>, ok: bool)
      ensures forall i | 0 <= i < |names| :: names[i] in world.deployments && world.deployments[names[i]].scenario.Some?
      ensures forall i, j | 0 <= i < j < |names| :: names[i] != names[j]
      ensures ok ==> forall d | d in world.deployments && world.deployments[d].scenario.Some? :: d in names
    {
      var rest := set d | d in world.deployments && world.deployments[d].scenario.Some?;
      names := Enumerate(rest);
      ok := true;
    }

    method Enumerate(names: set<string>) returns (list: seq<string>)
      ensures (forall n | n in names :: n in list) && forall i | 0 <= i < |list| :: list[i] in names
      ensures forall i, j | 0 <= i < j < |list| :: list[i] != list[j]
    {
      list := [];
      var rest := names;
      while rest != {}
        invariant rest <= names && forall n | n in names :: n in rest || n in list
        invariant forall i | 0 <= i < |list| :: list[i] in names && list[i] !in rest
        invariant forall i, j | 0 <= i < j < |list| :: list[i] != list[j]
        decreases |rest|
      {
        var n :| n in rest;
        list, rest := list + [n], rest - {n};
      }
    }
  }
}
