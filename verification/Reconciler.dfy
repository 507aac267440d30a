/** The controller: one level-triggered pass for one MaintenanceJob, step by step. Everything a pass
    writes is a legal label of the protocol, whatever others do in between and wherever it stops. */
module Reconciler {
  import opened Prelude
  import opened Names
  import opened Api
  import opened Helpers
  import opened Protocol
  import opened UndoLog
  import opened Invariants
  import opened Interference
  import opened ApiServers
  import Actions
  import Injectors
  import Theorems
  import opened Drain
  import opened Passes

  class MaintenanceJobReconciler {
    const api: ApiServer
    const name: string
    /** The pass's working copy of the resource, overwritten in place by every status patch. */
    var fs: MaintenanceJob

    constructor (api: ApiServer, name: string, fs: MaintenanceJob)
      ensures this.api == api && this.name == name && this.fs == fs
    {
      this.api := api;
      this.name := name;
      this.fs := fs;
    }

    // ---------- what a pass knows ----------

    ghost predicate Sound()
      reads api
    {
      api.Valid() && ScenarioName(api.env, name)
    }

    /** The working copy shows the status, the actions and, if no user writes, the spec. */
    ghost predicate Tracks()
      reads this, api
      requires name in api.world.mjs
    {
      && fs.status == api.world.mjs[name].status && fs.spec.actions == api.world.mjs[name].spec.actions
      && (name in api.env.quiet ==>
            fs.spec == api.world.mjs[name].spec && fs.deleting == api.world.mjs[name].deleting)
    }

    /** The spec validates or the resource is being deleted: the pass may drain. */
    ghost predicate MayGo()
      reads api
    {
      api.env.freshReads ==> MayDrain(api.world, name)
    }

    ghost predicate Ready()
      reads this, api
    {
      && Sound() && name in api.world.mjs && api.world.mjs[name].finalizer && api.Knows(name, fs)
      && (api.env.freshReads ==> Tracks())
    }

    /** A pass of a run, on a spec that was validated. */
    ghost predicate InRun(run: CurrentRun)
      reads this
    {
      api.env.freshReads ==>
        ValidActions(fs.spec.actions) && fs.status.currentRun == Some(run) && Lasting(run)
    }

    ghost function Writes(): seq<Label>
      reads api
    {
      Own(name, api.trace)
    }

    /** The pass has gone on from a point with the given trace, own writes and faults. */
    ghost predicate Since(trace: seq<Label>, writes: seq<Label>, faults: nat, draining: bool)
      reads api
    {
      Sound() && trace <= api.trace && Grew(writes, Writes(), draining) && faults <= api.faults
    }

    ghost predicate Went(trace: seq<Label>, faults: nat)
      reads api
    {
      Sound() && trace <= api.trace && faults <= api.faults
    }

    /** From one point of a pass to a later one. */
    ghost predicate Onward(w: World, w': World)
    {
      && w.clock <= w'.clock && name in w.mjs && name in w'.mjs
      && w'.mjs[name].spec.actions == w.mjs[name].spec.actions
      && (w.mjs[name].deleting ==> w'.mjs[name].deleting)
      && (name in api.env.quiet ==>
            w'.mjs[name].spec == w.mjs[name].spec && w'.mjs[name].deleting == w.mjs[name].deleting)
    }

    /** From one point to a later one: the copy shows the actions it showed, or, once it has been
        refreshed by a status write, those of the resource. */
    ghost predicate ForthTo(w: World, actions: seq<Action>, writes: seq<Label>,
                            w': World, actions': seq<Action>, writes': seq<Label>)
    {
      && Onward(w, w') && writes <= writes'
      && actions' == if PutFrom(writes', |writes|) then w'.mjs[name].spec.actions else actions
    }

    ghost predicate Forth(w: World, actions: seq<Action>, writes: seq<Label>)
      reads this, api
    {
      ForthTo(w, actions, writes, api.world, fs.spec.actions, Writes())
    }

    lemma ForthTrans(w: World, actions: seq<Action>, writes: seq<Label>,
                     w1: World, actions1: seq<Action>, writes1: seq<Label>)
      requires ForthTo(w, actions, writes, w1, actions1, writes1) && Forth(w1, actions1, writes1)
      ensures Forth(w, actions, writes)
    {
      PutsAdd(writes1, Writes(), |writes|);
    }

    // ---------- patchStatus ----------

    /** The mutation is right for what was durable at w. */
    ghost predicate Fits(w: World, why: Why, mutate: Status -> Status)
    {
      && EnvOK(api.env) && Inv(api.env, w) && ScenarioName(api.env, name) && name in w.mjs && w.mjs[name].finalizer
      && WeakStatus(why, w.mjs[name].status, mutate(w.mjs[name].status))
      && (api.env.freshReads ==>
            StrongStatus(api.env, w, name, why, w.mjs[name].status, mutate(w.mjs[name].status)))
    }

    lemma FitsLater(w: World, w': World, why: Why, mutate: Status -> Status)
      requires Fits(w, why, mutate) && Steady(api.env, name, w, w')
      ensures name in w'.mjs && w'.mjs[name].status == w.mjs[name].status
      ensures Allowed(api.env, w', PutStatus(name, why, mutate(w'.mjs[name].status)))
    {
      if api.env.freshReads {
        SteadyStatus(api.env, name, w, w', why, mutate(w.mjs[name].status));
      }
    }

    /** However others have acted since w, the status is as it was and may be mutated. */
    ghost predicate Admits(w: World, why: Why, mutate: Status -> Status)
      requires name in w.mjs
    {
      && EnvOK(api.env) && w.mjs[name].finalizer
      && forall w' | Inv(api.env, w') && Steady(api.env, name, w, w') ::
           && name in w'.mjs && w'.mjs[name].status == w.mjs[name].status
           && Allowed(api.env, w', PutStatus(name, why, mutate(w'.mjs[name].status)))
    }

    lemma FitIsAdmitted(w: World, why: Why, mutate: Status -> Status)
      requires Fits(w, why, mutate)
      ensures Admits(w, why, mutate)
    {
      forall w' | Inv(api.env, w') && Steady(api.env, name, w, w')
        ensures name in w'.mjs && w'.mjs[name].status == w.mjs[name].status
        ensures Allowed(api.env, w', PutStatus(name, why, mutate(w'.mjs[name].status)))
      {
        FitsLater(w, w', why, mutate);
      }
    }

    lemma AdmitsAnyVersion(w: World, now: World, held: MaintenanceJob, why: Why, mutate: Status -> Status)
      requires name in w.mjs && Admits(w, why, mutate) && Steady(api.env, name, w, now)
      ensures api.StaysAllowed(name, held, PutStatus(name, why, mutate(held.status)), now)
    {
      forall w' | Inv(api.env, w') && Steady(api.env, name, now, w') && name in w'.mjs && w'.mjs[name] == held
        ensures Allowed(api.env, w', PutStatus(name, why, mutate(held.status)))
      {
        SteadyTrans(api.env, name, w, now, w');
      }
    }

    /** The mutation was written over the status as it was at w. */
    ghost predicate Stored(w: World, why: Why, mutate: Status -> Status)
      reads api
      requires name in w.mjs
    {
      && Onward(w, api.world) && api.world.mjs[name].finalizer
      && api.world.mjs[name].status == mutate(w.mjs[name].status)
      && api.world.mjs[name].version == api.world.revision
    }

    /** The write landed: what is stored now. */
    lemma Landed(w: World, earlier: World, held: MaintenanceJob, why: Why, mutate: Status -> Status)
      requires name in w.mjs && w.mjs[name].finalizer && Steady(api.env, name, w, earlier)
      requires api.WroteAfterOthers(name, held, PutStatus(name, why, mutate(held.status)), earlier)
      ensures held.status == w.mjs[name].status && Stored(w, why, mutate)
    {
      ghost var mid :| Steady(api.env, name, earlier, mid) && name in mid.mjs && mid.mjs[name] == held
                       && Allowed(api.env, mid, PutStatus(name, why, mutate(held.status)))
                       && api.world == Next(mid, PutStatus(name, why, mutate(held.status)));
      SteadyTrans(api.env, name, w, earlier, mid);
      StatusShape(mid, name, why, mutate(held.status));
    }

    /** What the update of a round has come to. */
    lemma PatchOutcome(w: World, w2: World, held: MaintenanceJob, why: Why, mutate: Status -> Status,
                       trace: seq<Label>, err: Option<Problem>)
      requires name in w.mjs && w.mjs[name].finalizer && Steady(api.env, name, w, w2)
      requires api.Answered(name, held, PutStatus(name, why, mutate(held.status)), w2, trace, err)
      ensures err == Some(Conflict) ==> Steady(api.env, name, w, api.world) && Writes() == Own(name, trace)
      ensures err.None? ==> Written(w, why, mutate, trace, Own(name, trace))
      ensures err.Some? ==> MayHaveWritten(w, why, mutate, Own(name, trace))
    {
      if err.Some? && Steady(api.env, name, w2, api.world) && Writes() == Own(name, trace) {
        SteadyTrans(api.env, name, w, w2, api.world);
      } else {
        Landed(w, w2, held, why, mutate);
      }
    }

    /** The one write of a patch. */
    ghost predicate Written(w: World, why: Why, mutate: Status -> Status, trace: seq<Label>, writes: seq<Label>)
      reads api
      requires name in w.mjs
    {
      && Stored(w, why, mutate)
      && var l := PutStatus(name, why, api.world.mjs[name].status);
         Writes() == writes + [l] && |trace| < |api.trace| && api.trace[|api.trace| - 1] == l
    }

    /** After the write the copy shows what is stored. */
    ghost predicate Wrote(w: World, why: Why, mutate: Status -> Status, trace: seq<Label>, writes: seq<Label>)
      reads this, api
      requires name in w.mjs
    {
      Written(w, why, mutate, trace, writes) && fs == api.world.mjs[name]
    }

    /** A failed patch: the write may have been made or not. */
    ghost predicate MayHaveWritten(w: World, why: Why, mutate: Status -> Status, writes: seq<Label>)
      reads api
      requires name in w.mjs
    {
      Writes() == writes || Writes() == writes + [PutStatus(name, why, mutate(w.mjs[name].status))]
    }

    /** One round of patchStatus: get, mutate, update if nobody wrote in between. w is where the
        first round began. */
    method TryPatch(mutate: Status -> Status, why: Why, ghost w: World) returns (err: Option<Problem>)
      requires Sound() && name in w.mjs && Admits(w, why, mutate) && Steady(api.env, name, w, api.world)
      modifies this`fs, api`world, api`trace, api`faults
      ensures Sound() && old(api.trace) <= api.trace && old(api.faults) <= api.faults
      ensures err == Some(Conflict) ==>
                && api.faults == old(api.faults) + 1 && fs == old(fs)
                && Steady(api.env, name, w, api.world) && Writes() == old(Writes())
      ensures err.None? ==> Wrote(w, why, mutate, old(api.trace), old(Writes()))
      ensures err.Some? ==>
                && fs == old(fs) && (api.env.freshReads ==> old(api.faults) < api.faults)
                && MayHaveWritten(w, why, mutate, old(Writes()))
    {
      var latest;
      latest, err := ReadLatest(w);
      if err.None? {
        err := PutPatched(mutate, why, latest.value, w, api.world);
      }
    }

    /** The read of the round. */
    method ReadLatest(ghost w: World) returns (latest: Option<MaintenanceJob>, err: Option<Problem>)
      requires Sound() && Steady(api.env, name, w, api.world) && name in w.mjs && w.mjs[name].finalizer
      modifies api`world, api`trace, api`faults
      ensures Sound() && old(api.trace) <= api.trace && old(api.faults) <= api.faults && Writes() == old(Writes())
      ensures Steady(api.env, name, w, api.world) && err != Some(Conflict)
      ensures err.Some? && api.env.freshReads ==> old(api.faults) < api.faults
      ensures err.None? ==> latest.Some? && api.Knows(name, latest.value) && api.faults == old(api.faults)
    {
      ghost var w1 := api.world;
      latest, err := api.GetMaintenanceJob(name);
      SteadyTrans(api.env, name, w, w1, api.world);
      if err == Some(Conflict) {
        err := Some(ApiFailure);
      } else if err.None? && latest.None? {
        err := Some(TargetMissing);
      }
    }

    /** The update of the round, from the copy just read. */
    method PutPatched(mutate: Status -> Status, why: Why, latest: MaintenanceJob, ghost w: World, ghost w2: World)
        returns (err: Option<Problem>)
      requires Sound() && name in w.mjs && Admits(w, why, mutate)
      requires w2 == api.world && Steady(api.env, name, w, w2) && api.Knows(name, latest)
      modifies this`fs, api`world, api`trace, api`faults
      ensures Sound() && old(api.trace) <= api.trace
      ensures api.faults == old(api.faults) + if err.Some? then 1 else 0
      ensures err == Some(Conflict) ==> Steady(api.env, name, w, api.world) && Writes() == old(Writes())
      ensures err.None? ==> Wrote(w, why, mutate, old(api.trace), old(Writes()))
      ensures err.Some? ==> fs == old(fs) && MayHaveWritten(w, why, mutate, old(Writes()))
    {
      var stored;
      err, stored := SendPatched(mutate, why, latest, w, w2);
      if err.None? {
        fs := stored.value;
      }
    }

    /** The update call itself, which leaves the copy as it was. */
    method SendPatched(mutate: Status -> Status, why: Why, latest: MaintenanceJob, ghost w: World, ghost w2: World)
        returns (err: Option<Problem>, stored: Option<MaintenanceJob>)
      requires Sound() && name in w.mjs && Admits(w, why, mutate)
      requires w2 == api.world && Steady(api.env, name, w, w2) && api.Knows(name, latest)
      modifies api`world, api`trace, api`faults
      ensures Sound() && old(api.trace) <= api.trace
      ensures api.faults == old(api.faults) + if err.Some? then 1 else 0
      ensures err == Some(Conflict) ==> Steady(api.env, name, w, api.world) && Writes() == old(Writes())
      ensures err.None? ==>
                Written(w, why, mutate, old(api.trace), old(Writes())) && stored == Some(api.world.mjs[name])
      ensures err.Some? ==> MayHaveWritten(w, why, mutate, old(Writes()))
    {
      AdmitsAnyVersion(w, w2, latest, why, mutate);
      err, stored := api.Update(name, latest, PutStatus(name, why, mutate(latest.status)));
      PatchOutcome(w, w2, latest, why, mutate, old(api.trace), err);
    }

    /** Applies a mutation to the latest status, retrying on conflicts. On success it was applied
        exactly once, to the status as it was, and fs is what is now stored. */
    method PatchStatus(mutate: Status -> Status, why: Why) returns (err: Option<Problem>)
      requires Ready()
      requires forall st :: WeakStatus(why, st, mutate(st))
      requires api.env.freshReads ==>
                 StrongStatus(api.env, api.world, name, why, api.world.mjs[name].status,
                              mutate(api.world.mjs[name].status))
      modifies this`fs, api`world, api`trace, api`faults
      ensures Sound() && old(api.trace) <= api.trace && old(api.faults) <= api.faults
      ensures err.None? ==>
                && Ready() && fs.status == mutate(old(api.world.mjs[name].status))
                && Forth(old(api.world), old(fs.spec.actions), old(Writes()))
                && Wrote(old(api.world), why, mutate, old(api.trace), old(Writes()))
      ensures err.Some? ==>
                && fs == old(fs) && (api.env.freshReads ==> old(api.faults) < api.faults)
                && MayHaveWritten(old(api.world), why, mutate, old(Writes()))
      // It gives up on a conflict after five rounds.
      ensures err == Some(Conflict) ==> api.faults == old(api.faults) + 5
    {
      api.Keeps();
      SteadyRefl(api.env, name, api.world);
      ghost var w, actions, writes, trace := api.world, fs.spec.actions, Writes(), api.trace;
      FitIsAdmitted(w, why, mutate);
      err := RetryPatch(mutate, why, w);
      if err.None? {
        WroteForth(w, why, mutate, trace, actions, writes);
      }
    }

    lemma WroteForth(w: World, why: Why, mutate: Status -> Status, trace: seq<Label>, actions: seq<Action>,
                     writes: seq<Label>)
      requires Sound() && name in w.mjs && Wrote(w, why, mutate, trace, writes)
      ensures Ready() && Forth(w, actions, writes)
    {
      assert Writes()[|writes|].PutStatus?;
      HoldsStored();
    }

    /** The rounds of patchStatus. */
    method RetryPatch(mutate: Status -> Status, why: Why, ghost w: World) returns (err: Option<Problem>)
      requires Sound() && name in w.mjs && Admits(w, why, mutate) && Steady(api.env, name, w, api.world)
      modifies this`fs, api`world, api`trace, api`faults
      ensures Sound() && old(api.trace) <= api.trace && old(api.faults) <= api.faults
      ensures err.None? ==> Wrote(w, why, mutate, old(api.trace), old(Writes()))
      ensures err.Some? ==>
                && fs == old(fs) && (api.env.freshReads ==> old(api.faults) < api.faults)
                && MayHaveWritten(w, why, mutate, old(Writes()))
      ensures err == Some(Conflict) ==> api.faults == old(api.faults) + 5
    {
      for tries := 0 to PATCH_RETRIES
        invariant Sound() && old(api.trace) <= api.trace && Writes() == old(Writes()) && fs == old(fs)
        invariant Steady(api.env, name, w, api.world)
        invariant api.faults == old(api.faults) + tries
      {
        err := TryPatch(mutate, why, w);
        if err != Some(Conflict) {
          return;
        }
      }
      return Some(Conflict);
    }

    /** patchStatus with a change of phases and conditions only. */
    method TouchStatus(mutate: Status -> Status) returns (err: Option<Problem>)
      requires Ready()
      requires forall st :: WeakStatus(Touch, st, mutate(st)) && SameBooks(st, mutate(st))
      modifies this`fs, api`world, api`trace, api`faults
      ensures Since(old(api.trace), old(Writes()), old(api.faults), true)
      ensures err.None? ==>
                && Ready() && fs == api.world.mjs[name] && fs.status == mutate(old(api.world.mjs[name].status))
                && Forth(old(api.world), old(fs.spec.actions), old(Writes()))
                && Writes() == old(Writes()) + [PutStatus(name, Touch, fs.status)]
      ensures err.Some? ==> fs == old(fs) && (api.env.freshReads ==> old(api.faults) < api.faults)
    {
      err := PatchStatus(mutate, Touch);
    }

    /** patchStatus with a change of one active action that keeps its token. */
    method MutateAction(action: string, f: ActiveAction -> ActiveAction) returns (err: Option<Problem>)
      requires Ready()
      requires forall a: ActiveAction :: f(a).name == a.name && f(a).atype == a.atype && f(a).token == a.token
      modifies this`fs, api`world, api`trace, api`faults
      ensures Since(old(api.trace), old(Writes()), old(api.faults), true)
      ensures err.None? ==>
                && Ready() && Forth(old(api.world), old(fs.spec.actions), old(Writes()))
                && fs == api.world.mjs[name]
      ensures err.Some? && api.env.freshReads ==> old(api.faults) < api.faults
      ensures err.None? && api.env.freshReads ==>
                fs.status == StatusMutation(old(fs.status), action, f) && fs.spec.actions == old(fs.spec.actions)
    {
      var mutate := (st: Status) => StatusMutation(st, action, f);
      forall st
        ensures WeakStatus(Touch, st, mutate(st)) && SameBooks(st, mutate(st))
      {
        MutationTouches(st, action, f);
      }
      err := TouchStatus(mutate);
    }

    // ---------- calls of the actions ----------

    /** A call changes no MaintenanceJob; what the pass knows of its own stays true. */
    lemma CallKeepsReady(earlier: World, mid: World, o: Outcome, spec: Actions.Effect, calm: bool)
      requires Sound() && Injectors.Called(api.env, name, earlier, mid, api.world, o, spec, calm)
      requires name in earlier.mjs && earlier.mjs[name].finalizer
      requires fs.version <= earlier.revision && (earlier.mjs[name].version == fs.version ==> earlier.mjs[name] == fs)
      requires api.env.freshReads ==>
                 && fs.status == earlier.mjs[name].status && fs.spec.actions == earlier.mjs[name].spec.actions
                 && (name in api.env.quiet ==>
                       fs.spec == earlier.mjs[name].spec && fs.deleting == earlier.mjs[name].deleting)
      ensures Ready() && Onward(earlier, api.world)
    {
    }

    /** One call of Ensure for the active action; ask.at is where it looked at the cluster. */
    method CallEnsureOf(act: Action, token: Token, rc: RunContext, run: CurrentRun)
        returns (o: Outcome, ghost ask: Ask)
      requires Ready() && InRun(run) && rc == RunContextOf(api.env, name, Some(run))
      requires var i := FindActiveAction(fs.status.activeActions, act.name);
               i >= 0 && fs.status.activeActions[i].token == token
      requires api.env.freshReads ==> act in fs.spec.actions
      modifies api`world, api`trace, api`faults
      ensures Ready() && Since(old(api.trace), old(Writes()), old(api.faults), false)
      ensures Forth(old(api.world), old(fs.spec.actions), old(Writes()))
      ensures ask.Ensured? && ask.o == o && (o.Wait? ==> SECOND <= o.after <= 10 * SECOND)
      ensures api.faults == old(api.faults) ==>
                Truthful(name, api.start, api.trace, |old(api.trace)|, ask, fs.status.activeActions, act, rc)
    {
      ghost var w := api.world;
      EnsureAllowed(act, token, rc, run);
      var settled;
      ghost var mid;
      o, settled, mid := Injectors.Ensure(api, name, act, token, rc);
      EnsureCalled(w, mid, act, token, rc, o, settled, |old(api.trace)|, api.faults == old(api.faults));
      ask := Ensured(o, if api.trace == [] then 0 else |api.trace| - 1, settled);
    }

    /** What a pass knows after a call of Ensure. */
    lemma EnsureCalled(w: World, mid: World, act: Action, token: Token, rc: RunContext, o: Outcome, settled: bool,
                       from: nat, calm: bool)
      requires Sound() && name in w.mjs && w.mjs[name].finalizer
      requires Injectors.Called(api.env, name, w, mid, api.world, o,
                                Actions.EnsureEffect(mid, rc, act, token, settled), calm)
      requires fs.version <= w.revision && (w.mjs[name].version == fs.version ==> w.mjs[name] == fs)
      requires api.env.freshReads ==>
                 && fs.status == w.mjs[name].status && fs.spec.actions == w.mjs[name].spec.actions
                 && (name in api.env.quiet ==> fs.spec == w.mjs[name].spec && fs.deleting == w.mjs[name].deleting)
      requires calm ==> Injectors.LastLabel(api, from, mid, CallEnsure(name, act, token, rc, settled))
      requires var i := FindActiveAction(fs.status.activeActions, act.name);
               i >= 0 && fs.status.activeActions[i].token == token
      ensures Ready() && Onward(w, api.world) && (o.Wait? ==> SECOND <= o.after <= 10 * SECOND)
      ensures calm ==> Truthful(name, api.start, api.trace, from, Ensured(o, |api.trace| - 1, settled),
                                fs.status.activeActions, act, rc)
    {
      CallKeepsReady(w, mid, o, Actions.EnsureEffect(mid, rc, act, token, settled), calm);
      Injectors.EnsureWaits(mid, rc, act, token, settled);
    }

    lemma EnsureAllowed(act: Action, token: Token, rc: RunContext, run: CurrentRun)
      requires Ready() && InRun(run) && rc == RunContextOf(api.env, name, Some(run))
      requires var i := FindActiveAction(fs.status.activeActions, act.name);
               i >= 0 && fs.status.activeActions[i].token == token
      requires api.env.freshReads ==> act in fs.spec.actions
      ensures forall w' | Steady(api.env, name, api.world, w') ::
                && Allowed(api.env, w', CallEnsure(name, act, token, rc, false))
                && Allowed(api.env, w', CallEnsure(name, act, token, rc, true))
    {
    }

    /** Ensure for an action with a token, and what is persisted of it. */
    method EnsureAction(act: Action, rc: RunContext, run: CurrentRun, now: Time)
        returns (applied: bool, wake: Duration, err: Option<Problem>, ghost ask: Ask)
      requires Ready() && InRun(run) && FindActiveAction(fs.status.activeActions, act.name) >= 0
      requires rc == RunContextOf(api.env, name, Some(run)) && (api.env.freshReads ==> act in fs.spec.actions)
      modifies this`fs, api`world, api`trace, api`faults
      ensures Since(old(api.trace), old(Writes()), old(api.faults), false)
      ensures err.None? ==> Ready() && InRun(run) && Forth(old(api.world), old(fs.spec.actions), old(Writes()))
      ensures err.Some? && api.env.freshReads ==> old(api.faults) < api.faults
      ensures 0 <= wake <= 16 * SECOND && (wake == 0 ==> applied)
      ensures err.None? && api.env.freshReads ==>
                && Converged(old(fs.status).activeActions, fs.status.activeActions, act, now, ask)
                && Activated(old(fs.status), old(fs.spec).actions, |old(api.trace)|, old(api.faults),
                             act, rc, run, now, applied, wake, ask)
    {
      var idx := FindActiveAction(fs.status.activeActions, act.name);
      var aa := fs.status.activeActions[idx];
      ghost var list := fs.status.activeActions;
      var o;
      o, ask := CallEnsureOf(act, aa.token, rc, run);
      ghost var w1, writes1 := api.world, Writes();
      ghost var called, calm := api.trace, api.faults == old(api.faults);
      err := NoteEnsure(aa, o, now);
      applied := o == Done || (o.Error? && aa.phase == Applied);
      wake := WakeAfter(o, aa.attempts);
      if err.None? {
        ForthTrans(old(api.world), old(fs.spec.actions), old(Writes()), w1, old(fs.spec.actions), writes1);
      }
      if err.None? && api.env.freshReads {
        NotedAnswers(list, fs.status.activeActions, ask, act, run, now);
        if calm {
          Believed(called, |old(api.trace)|, list, fs.status.activeActions, act, rc, ask);
        }
      }
    }

    lemma Believed(called: seq<Label>, from: nat, list: seq<ActiveAction>, list': seq<ActiveAction>,
                   act: Action, rc: RunContext, ask: Ask)
      requires ask.Ensured? && Truthful(name, api.start, called, from, ask, list, act, rc) && called <= api.trace
      requires var i, j := FindActiveAction(list, act.name), FindActiveAction(list', act.name);
               i >= 0 && j >= 0 && list'[j].token == list[i].token
      ensures Truthful(name, api.start, api.trace, from, ask, list', act, rc)
    {
      assert called[..ask.at] == api.trace[..ask.at];
    }

    /** What the bookkeeping of an Ensure call leaves of the action's entry. */
    ghost predicate Converged(list: seq<ActiveAction>, list': seq<ActiveAction>, act: Action, now: Time, ask: Ask) {
      var i, j := FindActiveAction(list, act.name), FindActiveAction(list', act.name);
      i >= 0 && j >= 0 && ask.Ensured? && EnsureNoted(list[i], list'[j], ask.o, now)
    }

    /** Persists what came of an Ensure call for the active action aa. */
    method NoteEnsure(aa: ActiveAction, o: Outcome, now: Time) returns (err: Option<Problem>)
      requires Ready()
      requires var i := FindActiveAction(fs.status.activeActions, aa.name); i >= 0 && fs.status.activeActions[i] == aa
      modifies this`fs, api`world, api`trace, api`faults
      ensures Since(old(api.trace), old(Writes()), old(api.faults), true)
      ensures err.None? ==> Ready() && Forth(old(api.world), old(fs.spec.actions), old(Writes()))
      ensures err.Some? && api.env.freshReads ==> old(api.faults) < api.faults
      ensures err.None? && api.env.freshReads ==>
                && fs.status.currentRun == old(fs.status.currentRun) && fs.status.ready == old(fs.status.ready)
                && fs.spec.actions == old(fs.spec.actions)
                && KeepsOthers(old(fs.status).activeActions, fs.status.activeActions, aa.name)
                && var j := FindActiveAction(fs.status.activeActions, aa.name);
                   j >= 0 && EnsureNoted(aa, fs.status.activeActions[j], o, now)
    {
      match o {
        case Error(p) =>
          err := MutateLocally(aa, (a: ActiveAction) => a.(attempts := a.attempts + 1, lastError := Some(p)));
        case Done =>
          err := None;
          if aa.phase != Applied || aa.lastError.Some? {
            var f := (a: ActiveAction) =>
              (if a.phase != Applied then a.(phase := Applied, appliedAt := Some(now)) else a)
              .(attempts := 0, lastError := None);
            err := MutateLocally(aa, f);
          }
        case Wait(_) =>
          err := None;
      }
    }

    /** patchStatus with a change of the entry aa, which the copy shows. */
    method MutateLocally(aa: ActiveAction, f: ActiveAction -> ActiveAction) returns (err: Option<Problem>)
      requires Ready()
      requires var i := FindActiveAction(fs.status.activeActions, aa.name); i >= 0 && fs.status.activeActions[i] == aa
      requires forall a: ActiveAction :: f(a).name == a.name && f(a).atype == a.atype && f(a).token == a.token
      modifies this`fs, api`world, api`trace, api`faults
      ensures Since(old(api.trace), old(Writes()), old(api.faults), true)
      ensures err.None? ==> Ready() && Forth(old(api.world), old(fs.spec.actions), old(Writes()))
      ensures err.Some? && api.env.freshReads ==> old(api.faults) < api.faults
      ensures err.None? && api.env.freshReads ==>
                && fs.status.currentRun == old(fs.status.currentRun) && fs.status.ready == old(fs.status.ready)
                && fs.spec.actions == old(fs.spec.actions)
                && KeepsOthers(old(fs.status).activeActions, fs.status.activeActions, aa.name)
                && var j := FindActiveAction(fs.status.activeActions, aa.name);
                   j >= 0 && fs.status.activeActions[j] == f(aa)
    {
      MutationIsLocal(fs.status, aa.name, f);
      err := MutateAction(aa.name, f);
    }

    // ---------- reconcileActivate ----------

    /** Plan is read-only: it answers from the cluster as others have left it, or fails. */
    method PlanAction(act: Action, rc: RunContext) returns (planned: Result<Token, Problem>)
      requires Ready()
      modifies api`world, api`trace, api`faults
      ensures Ready() && old(api.trace) <= api.trace && Writes() == old(Writes()) && old(api.faults) <= api.faults
      ensures Forth(old(api.world), old(fs.spec.actions), old(Writes()))
      ensures planned.Ok? || api.faults == old(api.faults) ==> planned == Actions.Plan(api.world, rc, act)
    {
      api.Interleave(name);
      var failed := api.Fails();
      planned := if failed then Err(ApiFailure) else Actions.Plan(api.world, rc, act);
    }

    /** Plans the action and persists its token before anything is touched. */
    method RecordToken(act: Action, rc: RunContext, run: CurrentRun)
        returns (recorded: bool, err: Option<Problem>, ghost ask: Ask)
      requires Ready() && InRun(run) && rc == RunContextOf(api.env, name, Some(run))
      requires api.env.freshReads ==>
                 && act in fs.spec.actions && FindActiveAction(fs.status.activeActions, act.name) < 0
                 && ActivateAt(act, run) <= api.world.clock
      modifies this`fs, api`world, api`trace, api`faults
      ensures Since(old(api.trace), old(Writes()), old(api.faults), false)
      ensures err.None? ==> Ready() && InRun(run) && Forth(old(api.world), old(fs.spec.actions), old(Writes()))
      ensures err.None? && recorded ==> FindActiveAction(fs.status.activeActions, act.name) >= 0
      ensures err.Some? && api.env.freshReads ==> old(api.faults) < api.faults
      ensures err.None? && api.env.freshReads ==>
                && fs.spec.actions == old(fs.spec.actions)
                && KeepsOthers(old(fs.status).activeActions, fs.status.activeActions, act.name)
                && (!recorded ==> FindActiveAction(fs.status.activeActions, act.name) < 0)
                && fs.status.ready == if recorded then old(fs.status.ready) else NotReady("PlanFailed")
      ensures ask.PlanFailed?
      ensures err.None? && !recorded && api.faults == old(api.faults) ==>
                Truthful(name, api.start, api.trace, |old(api.trace)|, ask, fs.status.activeActions, act, rc)
    {
      var planned := PlanAction(act, rc);
      ghost var w1, writes1, looked, calm := api.world, Writes(), api.trace, api.faults == old(api.faults);
      ask := PlanFailed(|looked|);
      recorded := planned.Ok?;
      if recorded {
        PlanIsFaithful(api.world, rc, act);
        var aa := ActiveAction(act.name, act.atype, Recorded, None, 0, None, planned.value);
        err := AppendToken(act, rc, aa);
      } else {
        err := TouchStatus((st: Status) => st.(ready := NotReady("PlanFailed")));
        if calm {
          FailedIsTruthful(looked, |old(api.trace)|, act, rc);
        }
      }
      if err.None? {
        ForthTrans(old(api.world), old(fs.spec.actions), old(Writes()), w1, old(fs.spec.actions), writes1);
      }
    }

    lemma FailedIsTruthful(looked: seq<Label>, from: nat, act: Action, rc: RunContext)
      requires looked <= api.trace && from <= |looked| && Actions.Plan(After(api.start, looked), rc, act).Err?
      ensures Truthful(name, api.start, api.trace, from, PlanFailed(|looked|), fs.status.activeActions, act, rc)
    {
      assert api.trace[..|looked|] == looked;
    }

    /** The guarded append of a planned token. */
    method AppendToken(act: Action, rc: RunContext, aa: ActiveAction) returns (err: Option<Problem>)
      requires Ready() && aa == ActiveAction(act.name, act.atype, Recorded, None, 0, None, aa.token)
      requires api.env.freshReads ==>
                 && rc == RunContextOf(api.env, name, fs.status.currentRun) && fs.status.currentRun.Some?
                 && act in fs.spec.actions && ValidActions(fs.spec.actions)
                 && FindActiveAction(fs.status.activeActions, act.name) < 0
                 && PlanAgrees(api.world, rc, act, aa.token)
                 && ActivateAt(act, fs.status.currentRun.value) <= api.world.clock
      modifies this`fs, api`world, api`trace, api`faults
      ensures Since(old(api.trace), old(Writes()), old(api.faults), false)
      ensures err.None? ==>
                && Ready() && Forth(old(api.world), old(fs.spec.actions), old(Writes()))
                && FindActiveAction(fs.status.activeActions, act.name) >= 0
      ensures err.Some? && api.env.freshReads ==> old(api.faults) < api.faults
      ensures err.None? && api.env.freshReads ==>
                && fs.status == AppendOnce(old(fs.status), aa) && fs.spec.actions == old(fs.spec.actions)
                && KeepsOthers(old(fs.status).activeActions, fs.status.activeActions, act.name)
    {
      var append := (st: Status) => AppendOnce(st, aa);
      forall st
        ensures WeakStatus(Record(act, rc), st, append(st)) && SameBooks(st, append(st))
      {
        AppendOnceRecords(st, aa, act, rc);
      }
      AppendFits(act, rc, aa);
      err := PatchStatus(append, Record(act, rc));
    }

    lemma AppendFits(act: Action, rc: RunContext, aa: ActiveAction)
      requires Ready() && aa == ActiveAction(act.name, act.atype, Recorded, None, 0, None, aa.token)
      requires api.env.freshReads ==>
                 && rc == RunContextOf(api.env, name, fs.status.currentRun) && fs.status.currentRun.Some?
                 && act in fs.spec.actions && ValidActions(fs.spec.actions)
                 && FindActiveAction(fs.status.activeActions, act.name) < 0
                 && PlanAgrees(api.world, rc, act, aa.token)
                 && ActivateAt(act, fs.status.currentRun.value) <= api.world.clock
      ensures var st := api.world.mjs[name].status;
              && KeepsOthers(st.activeActions, AppendOnce(st, aa).activeActions, act.name)
              && FindActiveAction(AppendOnce(st, aa).activeActions, act.name) >= 0
              && (api.env.freshReads ==>
                    StrongStatus(api.env, api.world, name, Record(act, rc), st, AppendOnce(st, aa)))
    {
      AppendOnceRecords(api.world.mjs[name].status, aa, act, rc);
    }

    /** How a pass left an action, since a point with the given status, trace and faults. */
    ghost predicate Activated(st: Status, actions: seq<Action>, from: nat, faults: nat, act: Action, rc: RunContext,
                              run: CurrentRun, now: Time, applied: bool, wake: Duration, ask: Ask)
      reads this, api
    {
      var list, list' := st.activeActions, fs.status.activeActions;
      && fs.spec.actions == actions && KeepsOthers(list, list', act.name) && (applied <==> InPlace(ask, list', act))
      && Answered(ask, list', act, run, now) && wake == WakeOf(ask, list', act, run, now)
      && fs.status.ready == (if ask.PlanFailed? then NotReady("PlanFailed") else st.ready)
      && (api.faults == faults ==> Truthful(name, api.start, api.trace, from, ask, list', act, rc))
    }

    lemma ActivatedSince(st: Status, st1: Status, actions: seq<Action>, from: nat, from1: nat,
                         faults: nat, faults1: nat, act: Action, rc: RunContext, run: CurrentRun, now: Time,
                         applied: bool, wake: Duration, ask: Ask)
      requires Activated(st1, actions, from1, faults1, act, rc, run, now, applied, wake, ask)
      requires KeepsOthers(st.activeActions, st1.activeActions, act.name) && st1.ready == st.ready
      requires from <= from1 && faults <= faults1 <= api.faults
      ensures Activated(st, actions, from, faults, act, rc, run, now, applied, wake, ask)
    {
      KeepsOthersTrans(st.activeActions, st1.activeActions, fs.status.activeActions, act.name);
    }

    /** Waits for the delay of an action without a token, then records one; ready when there is one. */
    method PrepareAction(act: Action, rc: RunContext, run: CurrentRun, now: Time)
        returns (ready: bool, wake: Duration, err: Option<Problem>, ghost ask: Ask)
      requires Ready() && InRun(run) && rc == RunContextOf(api.env, name, Some(run))
      requires (api.env.freshReads ==> act in fs.spec.actions) && now <= api.world.clock
      modifies this`fs, api`world, api`trace, api`faults
      ensures Since(old(api.trace), old(Writes()), old(api.faults), false)
      ensures err.None? ==> Ready() && InRun(run) && Forth(old(api.world), old(fs.spec.actions), old(Writes()))
      ensures err.None? && ready ==> FindActiveAction(fs.status.activeActions, act.name) >= 0
      ensures err.None? && !ready ==> 0 < wake
      ensures err.Some? && api.env.freshReads ==> old(api.faults) < api.faults
      ensures err.None? && api.env.freshReads ==>
                && fs.spec.actions == old(fs.spec.actions)
                && KeepsOthers(old(fs.status).activeActions, fs.status.activeActions, act.name)
      ensures err.None? && ready && api.env.freshReads ==> fs.status.ready == old(fs.status).ready
      ensures err.None? && !ready && api.env.freshReads ==>
                Activated(old(fs.status), old(fs.spec).actions, |old(api.trace)|, old(api.faults),
                          act, rc, run, now, false, wake, ask)
    {
      ready, wake, err, ask := true, 0, None, NotDue;
      if FindActiveAction(fs.status.activeActions, act.name) < 0 {
        if now < ActivateAt(act, run) {
          return false, ActivateAt(act, run) - now, None, NotDue;
        }
        ready, err, ask := RecordToken(act, rc, run);
        wake := 10 * SECOND;
      }
    }

    /** One action of the spec: wait for its delay, record its token, then converge. */
    method ActivateAction(act: Action, rc: RunContext, run: CurrentRun, now: Time)
        returns (applied: bool, wake: Duration, err: Option<Problem>, ghost ask: Ask)
      requires Ready() && InRun(run) && rc == RunContextOf(api.env, name, Some(run))
      requires (api.env.freshReads ==> act in fs.spec.actions) && now <= api.world.clock
      modifies this`fs, api`world, api`trace, api`faults
      ensures Since(old(api.trace), old(Writes()), old(api.faults), false)
      ensures err.None? ==> Ready() && InRun(run) && Forth(old(api.world), old(fs.spec.actions), old(Writes()))
      ensures err.None? ==> 0 <= wake && (!applied ==> 0 < wake)
      ensures err.Some? && api.env.freshReads ==> old(api.faults) < api.faults
      ensures err.None? && api.env.freshReads ==>
                Activated(old(fs.status), old(fs.spec).actions, |old(api.trace)|, old(api.faults),
                          act, rc, run, now, applied, wake, ask)
    {
      var ready;
      ready, wake, err, ask := PrepareAction(act, rc, run, now);
      applied := false;
      if err.Some? || !ready {
        return;
      }
      ghost var st, from, faults := fs.status, |api.trace|, api.faults;
      ghost var w1, actions1, writes1 := api.world, fs.spec.actions, Writes();
      applied, wake, err, ask := EnsureAction(act, rc, run, now);
      if err.None? {
        ForthTrans(old(api.world), old(fs.spec.actions), old(Writes()), w1, actions1, writes1);
        if api.env.freshReads {
          ActivatedSince(old(fs.status), st, old(fs.spec).actions, |old(api.trace)|, from, old(api.faults), faults,
                         act, rc, run, now, applied, wake, ask);
        }
      }
    }

    /** The phase of the pass, and the wake-up: steady-state resync, and exactly at expiry. */
    method FinishActivation(run: CurrentRun, allApplied: bool, wake: Duration) returns (r: PassResult)
      requires Ready() && InRun(run) && wake >= 0
      modifies this`fs, api`world, api`trace, api`faults
      ensures Since(old(api.trace), old(Writes()), old(api.faults), true)
      ensures r.Aborted? || r.RequeueAfter?
      ensures r.Aborted? && api.env.freshReads ==> old(api.faults) < api.faults
      ensures !r.Aborted? ==>
                && Ready() && Forth(old(api.world), old(fs.spec.actions), old(Writes()))
                && 0 < r.after <= 30 * SECOND && (wake > 0 ==> r.after <= wake)
                && (run.expiresAt.Some? ==> r.after <= UntilExpiry(run, api.world.clock))
                && (r.after in {wake, 30 * SECOND} || AtExpiry(run, r.after, api.world.clock))
      ensures !r.Aborted? && api.env.freshReads ==>
                fs.spec.actions == old(fs.spec.actions) && PhaseNoted(old(fs.status), fs.status, allApplied)
    {
      var err := NotePhase(allApplied);
      if err.Some? {
        return Aborted(err.value);
      }
      var requeueAfter := LowerRequeue(wake, STEADY_STATE_RESYNC);
      if run.expiresAt.Some? {
        var now := Clock();
        var until := run.expiresAt.value - now;
        if until < SECOND {
          until := SECOND;
        }
        requeueAfter := LowerRequeue(requeueAfter, until);
      }
      r := RequeueAfter(requeueAfter);
    }

    method NotePhase(allApplied: bool) returns (err: Option<Problem>)
      requires Ready()
      modifies this`fs, api`world, api`trace, api`faults
      ensures Since(old(api.trace), old(Writes()), old(api.faults), true)
      ensures err.Some? && api.env.freshReads ==> old(api.faults) < api.faults
      ensures err.None? ==> Ready() && Forth(old(api.world), old(fs.spec.actions), old(Writes()))
      ensures err.None? && api.env.freshReads ==>
                fs.spec.actions == old(fs.spec.actions) && PhaseNoted(old(fs.status), fs.status, allApplied)
    {
      var phase := if allApplied then Active else Activating;
      err := None;
      if fs.status.phase != phase || !fs.status.ready.Ready? {
        err := TouchStatus((st: Status) =>
                             st.(phase := phase, ready := if allApplied then Readiness.Ready("Active") else st.ready));
      }
    }

    /** Drives the scenario toward the injected state, or holds it there. asks: how each action was
        left; began: the time the pass used. */
    method ReconcileActivate(run: CurrentRun)
        returns (r: PassResult, ghost asks: seq<Ask>, ghost began: Time, ghost marks: seq<nat>)
      requires Ready() && InRun(run)
      modifies this`fs, api`world, api`trace, api`faults
      ensures Since(old(api.trace), old(Writes()), old(api.faults), false)
      ensures api.env.freshReads ==> !r.Panicked? && (r.Aborted? ==> old(api.faults) < api.faults)
      ensures r.Aborted? || r.Panicked? || r.RequeueAfter?
      // Active means applied, and a wake-up is never missed.
      ensures r.RequeueAfter? ==>
                Drove(run, r.after, old(fs.spec).actions, asks, began, old(api.world).clock, |old(api.trace)|,
                      old(api.faults))
      // It panics exactly when the copy, once refreshed, has no action left for the next step.
      ensures r.Panicked? ==>
                FellShort(|old(api.world).mjs[name].spec.actions|, |old(fs.spec).actions|, Writes(),
                          |old(Writes())|, marks, |asks|)
      ensures r.RequeueAfter? ==>
                && |asks| == |marks| == |old(fs.spec).actions|
                && LongEnough(|old(api.world).mjs[name].spec.actions|, |old(fs.spec).actions|, Writes(),
                              |old(Writes())|, marks)
    {
      ghost var actions, writes, from, faults, earliest :=
        fs.spec.actions, Writes(), |api.trace|, api.faults, api.world.clock;
      var now := Clock();
      began := now;
      ghost var w, from1 := api.world, |api.trace|;
      var stop, requeueAfter, allApplied;
      stop, requeueAfter, allApplied, asks, marks := DriveAll(run, now);
      if stop.Some? {
        r := stop.value;
      } else {
        r := EndDrive(run, allApplied, requeueAfter, asks, marks, began, w, actions, writes, from1, faults);
        if r.RequeueAfter? {
          DroveEarlier(run, r.after, actions, asks, began, w.clock, from1, faults, earliest, from, faults);
        }
      }
    }

    /** The end of a pass whose loop began with the given world, actions, writes, trace and faults. */
    method EndDrive(run: CurrentRun, allApplied: bool, wake: Duration, ghost asks: seq<Ask>, ghost marks: seq<nat>,
                    ghost began: Time, ghost w: World, ghost actions: seq<Action>, ghost writes: seq<Label>,
                    ghost from: nat, ghost faults: nat)
        returns (r: PassResult)
      requires DrivenSoFar(w, actions, writes, marks, asks, wake, allApplied, from, faults, run, began)
      requires |asks| == |actions| && w.clock <= began
      modifies this`fs, api`world, api`trace, api`faults
      ensures Since(old(api.trace), old(Writes()), old(api.faults), true)
      ensures r.Aborted? || r.RequeueAfter?
      ensures r.Aborted? && api.env.freshReads ==> old(api.faults) < api.faults
      ensures r.RequeueAfter? ==>
                && Drove(run, r.after, actions, asks, began, w.clock, from, faults)
                && LongEnough(|w.mjs[name].spec.actions|, |actions|, Writes(), |writes|, marks)
    {
      ghost var driven, trace, st := Writes(), api.trace, fs.status;
      r := FinishActivation(run, allApplied, wake);
      MarksStay(|w.mjs[name].spec.actions|, |actions|, driven, Writes(), |writes|, marks);
      if r.RequeueAfter? && api.env.freshReads {
        DroveAll(run, r.after, wake, st, trace, actions, asks, allApplied, began, w.clock, from, faults);
      }
    }

    lemma DroveAll(run: CurrentRun, after: Duration, wake: Duration, st: Status, trace: seq<Label>,
                   actions: seq<Action>, asks: seq<Ask>, allApplied: bool, began: Time, earliest: Time, from: nat,
                   faults: nat)
      requires ActivatedSoFar(st, trace, actions, asks, wake, allApplied, from,
                              api.faults == faults,
                              RunContextOf(api.env, name, Some(run)), run, began)
      requires |asks| == |actions| && trace <= api.trace && 0 < after <= 30 * SECOND && (wake > 0 ==> after <= wake)
      requires run.expiresAt.Some? ==> after <= UntilExpiry(run, api.world.clock)
      requires after in {wake, 30 * SECOND} || AtExpiry(run, after, api.world.clock)
      requires Ready() && fs.spec.actions == actions && earliest <= began <= api.world.clock
      requires PhaseNoted(st, fs.status, allApplied)
      ensures Drove(run, after, actions, asks, began, earliest, from, faults)
    {
      WakesEarlier(wake, after, fs.status.activeActions, actions, asks, run, began);
      if api.faults == faults {
        AllTruthfulLater(name, api.start, trace, api.trace, from, asks, fs.status.activeActions, actions,
                         RunContextOf(api.env, name, Some(run)));
      }
    }

    /** The loop over the actions of the spec; stop: the pass ends early. */
    method DriveAll(run: CurrentRun, now: Time)
        returns (stop: Option<PassResult>, requeueAfter: Duration, allApplied: bool,
                 ghost asks: seq<Ask>, ghost marks: seq<nat>)
      requires Ready() && InRun(run) && now <= api.world.clock
      modifies this`fs, api`world, api`trace, api`faults
      ensures Since(old(api.trace), old(Writes()), old(api.faults), false)
      ensures stop.Some? ==> stop.value.Panicked? || stop.value.Aborted?
      ensures stop.Some? && api.env.freshReads ==> stop.value.Aborted? && old(api.faults) < api.faults
      ensures stop == Some(Panicked) ==>
                FellShort(|old(api.world).mjs[name].spec.actions|, |old(fs.spec).actions|, Writes(),
                          |old(Writes())|, marks, |asks|)
      ensures stop.None? ==>
                && |asks| == |old(fs.spec).actions|
                && DrivenSoFar(old(api.world), old(fs.spec).actions, old(Writes()), marks, asks, requeueAfter,
                               allApplied, |old(api.trace)|, old(api.faults), run, now)
    {
      ghost var w, actions, writes, from, faults := api.world, fs.spec.actions, Writes(), |api.trace|, api.faults;
      requeueAfter, allApplied, asks, marks := 0, true, [], [];
      var n := |fs.spec.actions|;
      for i := 0 to n
        invariant Since(old(api.trace), writes, faults, false) && |asks| == i
        invariant DrivenSoFar(w, actions, writes, marks, asks, requeueAfter, allApplied, from, faults, run, now)
      {
        stop, requeueAfter, allApplied, asks, marks := DriveNext(i, run, now, requeueAfter, allApplied, asks, marks,
                                                                 w, actions, writes, from, faults);
        if stop.Some? {
          return;
        }
      }
      stop := None;
    }

    /** What the loop has come to, since it began with the given world, actions, writes, trace and faults. */
    ghost predicate DrivenSoFar(w: World, actions: seq<Action>, writes: seq<Label>, marks: seq<nat>, asks: seq<Ask>,
                                requeueAfter: Duration, allApplied: bool, from: nat, faults: nat,
                                run: CurrentRun, now: Time)
      reads this, api
    {
      && Ready() && InRun(run) && now <= api.world.clock && from <= |api.trace| && faults <= api.faults
      && Marked(w, actions, writes, marks) && |asks| == |marks| && requeueAfter >= 0
      && (api.env.freshReads ==>
            && fs.spec.actions == actions
            && ActivatedSoFar(fs.status, api.trace, actions, asks, requeueAfter, allApplied, from,
                              api.faults == faults, RunContextOf(api.env, name, Some(run)), run, now))
    }

    /** The i-th step of the loop. */
    method DriveNext(i: nat, run: CurrentRun, now: Time, requeueAfter: Duration, allApplied: bool,
                     ghost asks: seq<Ask>, ghost marks: seq<nat>, ghost w: World, ghost actions: seq<Action>,
                     ghost writes: seq<Label>, ghost from: nat, ghost faults: nat)
        returns (stop: Option<PassResult>, lowered: Duration, stillApplied: bool,
                 ghost asks': seq<Ask>, ghost marks': seq<nat>)
      requires DrivenSoFar(w, actions, writes, marks, asks, requeueAfter, allApplied, from, faults, run, now)
      requires |asks| == i < |actions|
      modifies this`fs, api`world, api`trace, api`faults
      ensures Since(old(api.trace), old(Writes()), old(api.faults), false)
      ensures stop.Some? ==> stop.value.Panicked? || stop.value.Aborted?
      ensures stop.Some? && api.env.freshReads ==> stop.value.Aborted? && old(api.faults) < api.faults
      ensures stop == Some(Panicked) ==>
                FellShort(|w.mjs[name].spec.actions|, |actions|, Writes(), |writes|, marks', |asks'|)
      ensures stop.None? ==>
                && |asks'| == i + 1
                && DrivenSoFar(w, actions, writes, marks', asks', lowered, stillApplied, from, faults, run, now)
    {
      StepBegins(w, actions, writes, marks);
      asks', marks', lowered, stillApplied := asks, marks + [|Writes()|], requeueAfter, allApplied;
      if i >= |fs.spec.actions| {
        // The refreshed copy has fewer actions: the index below panics in Go.
        stop := Some(Panicked);
        return;
      }
      var act := fs.spec.actions[i];
      if act.atype.OtherType? {
        stop := Some(Aborted(UnknownAction));
        return;
      }
      ghost var w1, actions1, writes1 := api.world, fs.spec.actions, Writes();
      var err;
      lowered, stillApplied, err, asks' := DriveAction(act, RunContextOf(api.env, name, Some(run)), run, now,
                                                       requeueAfter, allApplied, actions, asks, from, faults);
      stop := if err.Some? then Some(Aborted(err.value)) else None;
      if err.None? {
        StepEnds(w, actions, writes, marks', w1, actions1, writes1);
      }
    }

    /** The loop so far found an action at each step, as the marks tell. */
    ghost predicate Marked(w: World, actions: seq<Action>, writes: seq<Label>, marks: seq<nat>)
      reads this, api
    {
      && Forth(w, actions, writes)
      && LongEnough(|w.mjs[name].spec.actions|, |actions|, Writes(), |writes|, marks)
    }

    lemma StepBegins(w: World, actions: seq<Action>, writes: seq<Label>, marks: seq<nat>)
      requires Marked(w, actions, writes, marks) && |marks| < |actions|
      ensures FellShort(|w.mjs[name].spec.actions|, |actions|, Writes(), |writes|, marks + [|Writes()|], |marks|)
              <==> |marks| >= |fs.spec.actions|
      ensures |marks| < |fs.spec.actions| ==> Marked(w, actions, writes, marks + [|Writes()|])
    {
      MarkNow(|w.mjs[name].spec.actions|, |actions|, Writes(), |writes|, marks, |fs.spec.actions|);
    }

    lemma StepEnds(w: World, actions: seq<Action>, writes: seq<Label>, marks: seq<nat>,
                   w1: World, actions1: seq<Action>, writes1: seq<Label>)
      requires ForthTo(w, actions, writes, w1, actions1, writes1) && Forth(w1, actions1, writes1)
      requires LongEnough(|w.mjs[name].spec.actions|, |actions|, writes1, |writes|, marks)
      ensures Marked(w, actions, writes, marks)
    {
      ForthTrans(w, actions, writes, w1, actions1, writes1);
      MarksStay(|w.mjs[name].spec.actions|, |actions|, writes1, Writes(), |writes|, marks);
    }

    /** What a pass that drove a run promises. It comes back within 30s and at expiry, misses no wish of an
        action, and comes for one of these. It leaves phase Active exactly if every action is in place,
        which means applied, and Activating otherwise. And, unless a call has failed, what each action was
        asked and answered is what the actions really do. */
    ghost predicate Drove(run: CurrentRun, after: Duration, actions: seq<Action>, asks: seq<Ask>, began: Time,
                          earliest: Time, from: nat, faults: nat)
      reads this, api
    {
      && 0 < after <= 30 * SECOND
      && (run.expiresAt.Some? ==> after <= UntilExpiry(run, api.world.clock))
      && (api.env.freshReads ==>
            && Ready() && fs.spec.actions == actions && earliest <= began <= api.world.clock && |asks| == |actions|
            && PhaseTells(fs.status, actions, asks)
            && (forall i | 0 <= i < |asks| :: Answered(asks[i], fs.status.activeActions, actions[i], run, began))
            && WakesInTime(after, fs.status.activeActions, actions, asks, run, began)
            && (|| after == 30 * SECOND || AtExpiry(run, after, api.world.clock)
                || WishOfOne(after, fs.status.activeActions, actions, asks, run, began))
            && (api.faults == faults ==>
                  AllTruthful(name, api.start, api.trace, from, asks, fs.status.activeActions, actions,
                              RunContextOf(api.env, name, Some(run)))))
    }

    /** The loop's step for one action; from and faults0 tell where the loop began. */
    method DriveAction(act: Action, rc: RunContext, run: CurrentRun, now: Time, requeueAfter: Duration,
                       allApplied: bool,
                       ghost actions: seq<Action>, ghost asks: seq<Ask>, ghost from: nat, ghost faults0: nat)
        returns (lowered: Duration, stillApplied: bool, err: Option<Problem>, ghost asks': seq<Ask>)
      requires Ready() && InRun(run) && rc == RunContextOf(api.env, name, Some(run)) && requeueAfter >= 0
      requires from <= |api.trace| && faults0 <= api.faults && now <= api.world.clock
      requires api.env.freshReads ==>
                 && fs.spec.actions == actions && |asks| < |actions| && act == actions[|asks|]
                 && ActivatedSoFar(fs.status, api.trace, actions, asks, requeueAfter, allApplied, from,
                                   api.faults == faults0, rc, run, now)
      modifies this`fs, api`world, api`trace, api`faults
      ensures Since(old(api.trace), old(Writes()), old(api.faults), false)
      ensures err.Some? && api.env.freshReads ==> old(api.faults) < api.faults
      ensures |asks'| == |asks| + 1
      ensures err.None? ==>
                && Ready() && InRun(run) && Forth(old(api.world), old(fs.spec.actions), old(Writes())) && lowered >= 0
      ensures err.None? && api.env.freshReads ==>
                && fs.spec.actions == actions
                && ActivatedSoFar(fs.status, api.trace, actions, asks', lowered, stillApplied, from,
                                  api.faults == faults0, rc, run, now)
    {
      ghost var st := fs.status;
      var applied, wake;
      ghost var ask;
      applied, wake, err, ask := ActivateAction(act, rc, run, now);
      asks' := asks + [ask];
      stillApplied := allApplied && applied;
      lowered := requeueAfter;
      if err.None? {
        lowered := LowerRequeue(requeueAfter, wake);
        if api.env.freshReads {
          ActivateOne(st, old(api.trace), actions, asks, requeueAfter, lowered, allApplied, applied, wake, ask,
                      old(api.faults), from, faults0, rc, run, now);
        }
      }
    }

    /** The first actions have been driven, no wish of theirs is missed, and they were asked in truth. */
    ghost predicate ActivatedSoFar(st: Status, trace: seq<Label>, actions: seq<Action>, asks: seq<Ask>, after: Duration,
                                   allApplied: bool, from: nat, calm: bool, rc: RunContext, run: CurrentRun, now: Time)
    {
      var list := st.activeActions;
      && Driven(list, actions, asks, allApplied, run, now) && WakesInTime(after, list, actions, asks, run, now)
      && WishOfOne(after, list, actions, asks, run, now) && ReadyTells(st.ready, asks)
      && (calm ==> AllTruthful(name, api.start, trace, from, asks, list, actions, rc))
    }

    lemma ActivateOne(st: Status, trace: seq<Label>, actions: seq<Action>, asks: seq<Ask>,
                      after: Duration, lowered: Duration, allApplied: bool, applied: bool, wake: Duration, ask: Ask,
                      faults: nat, from: nat, faults0: nat, rc: RunContext, run: CurrentRun, now: Time)
      requires ActivatedSoFar(st, trace, actions, asks, after, allApplied, from, faults == faults0, rc, run, now)
      requires |asks| < |actions| && ValidActions(actions) && trace <= api.trace && from <= |trace|
      requires faults0 <= faults <= api.faults
      requires Activated(st, actions, |trace|, faults, actions[|asks|], rc, run, now, applied, wake, ask)
      requires after >= 0 && lowered == LowerRequeue(after, wake)
      ensures ActivatedSoFar(fs.status, api.trace, actions, asks + [ask], lowered, allApplied && applied,
                         from, api.faults == faults0, rc, run, now)
    {
      var act, list, list' := actions[|asks|], st.activeActions, fs.status.activeActions;
      DriveOne(list, list', actions, asks, allApplied, applied, ask, run, now);
      WakeOne(after, lowered, list, list', actions, asks, ask, run, now);
      ReadyOne(st.ready, fs.status.ready, asks, ask);
      WishOne(after, lowered, list, list', actions, asks, ask, run, now);
      if api.faults == faults0 {
        Widen(trace, from, ask, act, rc);
        TruthfulOne(name, api.start, trace, api.trace, from, asks, ask, list, list', actions, rc);
      }
    }

    lemma Widen(trace: seq<Label>, from: nat, ask: Ask, act: Action, rc: RunContext)
      requires Truthful(name, api.start, api.trace, |trace|, ask, fs.status.activeActions, act, rc) && from <= |trace|
      ensures Truthful(name, api.start, api.trace, from, ask, fs.status.activeActions, act, rc)
    {
    }

    lemma WakesEarlier(after: Duration, after': Duration, list: seq<ActiveAction>, actions: seq<Action>,
                       asks: seq<Ask>, run: CurrentRun, now: Time)
      requires WakesInTime(after, list, actions, asks, run, now) && 0 < after' && (after > 0 ==> after' <= after)
      ensures WakesInTime(after', list, actions, asks, run, now)
    {
    }

    // ---------- reconcileRevert and finishRun ----------

    /** A run that others may not keep alive: an enabled one is closed only with enabled off, unless
        a user has turned it on again. */
    ghost predicate MayClose(run: Option<CurrentRun>)
      reads this
    {
      api.env.freshReads ==>
        && run == fs.status.currentRun
        && (run.Some? && run.value.trigger == Enabled && name in api.env.quiet ==> !fs.spec.enabled)
    }

    /** A pass without failures from the point with the given trace has brought the drain forward. */
    ghost predicate Forward(from: nat)
      reads api
    {
      Progressed(api.start, name, from, api.trace)
    }

    /** The run is closed in the cluster, ended no earlier than the time given, or the resource has been
        released. */
    ghost predicate Ended(st: Status, deleting: bool, earliest: Time)
      reads api
    {
      if deleting then name !in api.world.mjs
      else
        && name in api.world.mjs
        && (st.currentRun.Some? ==>
              Closed(st, api.world.mjs[name].status, st.currentRun.value, earliest, api.world.clock))
    }

    /** The answer is what Revert of the newest action really says. */
    ghost predicate Told(answer: Option<Answer>, st: Status, trace: seq<Label>, from: nat) {
      answer.Some? ==>
        && st.activeActions != []
        && TrueAnswer(name, api.start, trace, from, answer.value, st.activeActions[|st.activeActions| - 1].token,
                      RunContextOf(api.env, name, st.currentRun))
    }

    lemma ToldEarlier(answer: Option<Answer>, st: Status, trace: seq<Label>, from: nat, trace': seq<Label>, from': nat)
      requires Told(answer, st, trace, from) && trace <= trace' && from' <= from
      ensures Told(answer, st, trace', from')
    {
      if answer.Some? {
        TrueAnswerLater(name, api.start, trace, trace', from, from', answer.value,
                        st.activeActions[|st.activeActions| - 1].token, RunContextOf(api.env, name, st.currentRun));
      }
    }

    /** Marking the scenario as reverting does not change what its newest action is. */
    lemma ToldOfBegun(answer: Option<Answer>, st: Status, trace: seq<Label>, from: nat, from': nat)
      requires Told(answer, DrainBegun(st), trace, from) && from' <= from
      ensures Told(answer, st, trace, from')
    {
      ToldEarlier(answer, DrainBegun(st), trace, from, trace, from');
    }

    /** Drains the newest active action, persisting after every step. */
    method ReconcileRevert(run: Option<CurrentRun>, deleting: bool)
        returns (r: PassResult, ghost answer: Option<Answer>)
      requires MayGo()
      requires Ready() && (if deleting then fs.deleting && fs.finalizer else MayClose(run))
      requires api.env.freshReads ==> run == fs.status.currentRun
      modifies this`fs, api`world, api`trace, api`faults
      ensures Since(old(api.trace), old(Writes()), old(api.faults), true)
      ensures api.env.freshReads && r.Aborted? ==> old(api.faults) < api.faults
      // Without failures one pass makes progress or finds that it has to wait; with nothing left to
      // drain, it closes the run or releases the resource.
      ensures api.env.freshReads && old(api.faults) == api.faults ==>
                && (if old(fs.status).activeActions != [] then Forward(|old(api.trace)|)
                    else Ended(old(fs.status), deleting, old(api.world).clock))
                && Told(answer, old(fs.status), api.trace, |old(api.trace)|)
      // It reverts the newest token once, as the action answers, or closes the run.
      ensures api.env.freshReads && !r.Aborted? && (old(fs.status).activeActions != [] || (!deleting && run.Some?)) ==>
                DrainedOne(old(fs.status), fs.status, r, answer, old(api.world).clock, api.world.clock)
      ensures r.RequeueAfter? ==> SECOND <= r.after <= 16 * SECOND
      ensures r == Settled ==> deleting && name !in api.world.mjs
      ensures !r.Aborted? && deleting ==> (r == Settled <==> old(fs.status).activeActions == [])
      // It panics exactly on a copy that still shows tokens of a status that has none.
      ensures r.Panicked? ==> StaleTokens(old(fs.status), old(api.world).mjs[name].status)
      ensures StaleTokens(old(fs.status), old(api.world).mjs[name].status) ==> r.Panicked? || r.Aborted?
    {
      answer := None;
      if |fs.status.activeActions| == 0 {
        r := FinishRun(run, deleting);
        return;
      }
      r, answer := DrainTokens(run);
    }

    /** Marks the scenario as reverting, and reverts its newest action. */
    method DrainTokens(run: Option<CurrentRun>) returns (r: PassResult, ghost answer: Option<Answer>)
      requires MayGo()
      requires Ready() && fs.status.activeActions != [] && (api.env.freshReads ==> run == fs.status.currentRun)
      modifies this`fs, api`world, api`trace, api`faults
      ensures Since(old(api.trace), old(Writes()), old(api.faults), true)
      ensures api.env.freshReads && r.Aborted? ==> old(api.faults) < api.faults
      ensures api.env.freshReads && old(api.faults) == api.faults ==>
                Forward(|old(api.trace)|) && Told(answer, old(fs.status), api.trace, |old(api.trace)|)
      ensures api.env.freshReads && !r.Aborted? ==>
                answer.Some? && RevertedOnce(DrainBegun(old(fs.status)), fs.status, r, answer.value.o)
      ensures r.RequeueAfter? ==> SECOND <= r.after <= 16 * SECOND
      ensures r != Settled
      ensures r.Panicked? ==> StaleTokens(old(fs.status), old(api.world).mjs[name].status)
      ensures StaleTokens(old(fs.status), old(api.world).mjs[name].status) ==> r.Panicked? || r.Aborted?
    {
      answer := None;
      var err := MarkReverting();
      if err.Some? {
        return Aborted(err.value), answer;
      }
      if |fs.status.activeActions| == 0 {
        // A stale copy had tokens, the refreshed one has none: the index below panics in Go.
        return Panicked, answer;
      }
      ghost var noted := api.trace;
      r, answer := RevertNewest(run);
      if Forward(|noted|) {
        ProgressWidens(api.start, name, |old(api.trace)|, |noted|, api.trace, api.trace);
      }
      if api.env.freshReads && old(api.faults) == api.faults {
        ToldOfBegun(answer, old(fs.status), api.trace, |noted|, |old(api.trace)|);
      }
    }

    method MarkReverting() returns (err: Option<Problem>)
      requires Ready()
      modifies this`fs, api`world, api`trace, api`faults
      ensures Since(old(api.trace), old(Writes()), old(api.faults), true)
      ensures err.Some? && api.env.freshReads ==> old(api.faults) < api.faults
      ensures err.None? ==> Ready() && Onward(old(api.world), api.world)
      ensures err.None? && api.env.freshReads ==>
                fs.status == DrainBegun(old(fs.status))
      ensures err.None? ==>
                fs.status.activeActions ==
                  if old(fs.status).phase in {Reverting, Degraded} then old(fs.status).activeActions
                  else old(api.world).mjs[name].status.activeActions
    {
      err := None;
      if fs.status.phase != Reverting && fs.status.phase != Degraded {
        err := TouchStatus((st: Status) => st.(phase := Reverting));
      } else {
        SteadyRefl(api.env, name, api.world);
      }
    }

    /** Reverts the newest action and persists what came of it. */
    method RevertNewest(run: Option<CurrentRun>) returns (r: PassResult, ghost answer: Option<Answer>)
      requires MayGo()
      requires Ready() && fs.status.activeActions != [] && (api.env.freshReads ==> run == fs.status.currentRun)
      modifies this`fs, api`world, api`trace, api`faults
      ensures r.RequeueAfter? ==> SECOND <= r.after <= 16 * SECOND
      ensures Since(old(api.trace), old(Writes()), old(api.faults), true)
      ensures r == Requeue || r.RequeueAfter? || r.Aborted?
      ensures api.env.freshReads && r.Aborted? ==> old(api.faults) < api.faults
      ensures api.env.freshReads && old(api.faults) == api.faults ==>
                Forward(|old(api.trace)|) && Told(answer, old(fs.status), api.trace, |old(api.trace)|)
      ensures api.env.freshReads && !r.Aborted? ==>
                answer.Some? && RevertedOnce(old(fs.status), fs.status, r, answer.value.o)
    {
      var rc := RunContextOf(api.env, name, run);
      var aa := fs.status.activeActions[|fs.status.activeActions| - 1];
      NewestIsKnown();
      if aa.atype.OtherType? {
        return Aborted(UnknownAction), None;
      }
      var outcome;
      ghost var said;
      outcome, said := RevertToken(aa, rc);
      answer := Some(said);
      ghost var called := api.trace;
      r := Conclude(aa, outcome);
      if api.env.freshReads && old(api.faults) == api.faults {
        CallOrDrop(|old(api.trace)|, called, outcome);
        ToldEarlier(answer, old(fs.status), called, |old(api.trace)|, api.trace, |old(api.trace)|);
      }
    }

    lemma CallOrDrop(from: nat, called: seq<Label>, o: Outcome)
      requires from <= |called| && called <= api.trace
      requires if o == Done then Forward(|called|) else Progressed(api.start, name, from, called)
      ensures Forward(from)
    {
      if o == Done {
        ProgressWidens(api.start, name, from, |called|, api.trace, api.trace);
      } else {
        ProgressWidens(api.start, name, from, from, called, api.trace);
      }
    }

    /** What follows a Revert call: the token is dropped, or kept for the next pass. */
    method Conclude(aa: ActiveAction, o: Outcome) returns (r: PassResult)
      requires MayGo()
      requires Ready() && fs.status.activeActions != [] && (o.Wait? ==> SECOND <= o.after <= 10 * SECOND)
      requires api.env.freshReads ==>
                 var list := fs.status.activeActions;
                 list[|list| - 1] == aa && FindActiveAction(list, aa.name) == |list| - 1
      requires o == Done && api.env.freshReads ==> Undone(api.world, name, aa.token)
      modifies this`fs, api`world, api`trace, api`faults
      ensures r.RequeueAfter? ==> SECOND <= r.after <= 16 * SECOND
      ensures Since(old(api.trace), old(Writes()), old(api.faults), true)
      ensures r == Requeue || r.RequeueAfter? || r.Aborted?
      ensures api.env.freshReads && r.Aborted? ==> old(api.faults) < api.faults
      ensures api.env.freshReads && old(api.faults) == api.faults && o == Done ==> Forward(|old(api.trace)|)
      ensures api.env.freshReads && !r.Aborted? ==> RevertedOnce(old(fs.status), fs.status, r, o)
    {
      if o == Done {
        var err := DropAction(aa);
        r := if err.Some? then Aborted(err.value) else Requeue;
      } else {
        r := NotDone(aa, o);
      }
    }

    lemma NewestIsKnown()
      requires Ready() && fs.status.activeActions != []
      ensures var list := fs.status.activeActions;
              api.env.freshReads ==>
                && FindActiveAction(list, list[|list| - 1].name) == |list| - 1
                && !list[|list| - 1].atype.OtherType?
    {
      api.Keeps();
      if api.env.freshReads {
        NewestIsOfType(api.env, api.world, name);
      }
    }

    lemma NewestIsOfType(env: Env, w: World, s: string)
      requires EnvOK(env) && env.freshReads && Inv(env, w) && s in w.mjs && w.mjs[s].status.activeActions != []
      ensures var list := w.mjs[s].status.activeActions;
              && FindActiveAction(list, list[|list| - 1].name) == |list| - 1
              && !list[|list| - 1].atype.OtherType?
    {
      assert WeakMJ(w, s) && StatusOK(env, s, w.mjs[s]);
      var list := w.mjs[s].status.activeActions;
      assert TokenOK(env, s, w.mjs[s].status.currentRun.value, list[|list| - 1]);
    }

    /** Keeps trying: after an error with backoff, else as soon as the action proposes. */
    method NotDone(aa: ActiveAction, o: Outcome) returns (r: PassResult)
      requires Ready() && o != Done && (o.Wait? ==> SECOND <= o.after <= 10 * SECOND)
      requires api.env.freshReads ==>
                 var list := fs.status.activeActions;
                 list != [] && list[|list| - 1] == aa && FindActiveAction(list, aa.name) == |list| - 1
      modifies this`fs, api`world, api`trace, api`faults
      ensures r.RequeueAfter? ==> SECOND <= r.after <= 16 * SECOND
      ensures Since(old(api.trace), old(Writes()), old(api.faults), true)
      ensures r.Aborted? || r.RequeueAfter?
      ensures api.env.freshReads && r.Aborted? ==> old(api.faults) < api.faults
      ensures api.env.freshReads && r.RequeueAfter? ==> RevertedOnce(old(fs.status), fs.status, r, o)
    {
      var err;
      match o {
        case Error(p) =>
          var attempts := aa.attempts + 1;
          var degraded := attempts >= DEGRADED_AFTER_FAILURES;
          var f := (a: ActiveAction) => a.(phase := Undoing, attempts := attempts, lastError := Some(p));
          err := NoteRevert(aa, f, degraded);
          r := if err.Some? then Aborted(err.value) else RequeueAfter(BackoffFor(attempts));
        case Wait(after) =>
          err := NoteRevert(aa, (a: ActiveAction) => a.(phase := Undoing, lastError := None), false);
          r := if err.Some? then Aborted(err.value) else RequeueAfter(if after <= 0 then 2 * SECOND else after);
      }
    }

    /** The Revert call itself: from the token alone. */
    method RevertToken(aa: ActiveAction, rc: RunContext) returns (o: Outcome, ghost answer: Answer)
      requires MayGo()
      requires Ready() && rc.scenario == name
      requires api.env.freshReads ==>
                 && rc == RunContextOf(api.env, name, fs.status.currentRun)
                 && fs.status.activeActions != [] && fs.status.activeActions[|fs.status.activeActions| - 1] == aa
      modifies api`world, api`trace, api`faults
      ensures MayGo()
      ensures Ready() && Since(old(api.trace), old(Writes()), old(api.faults), true)
      ensures o == Done ==> Undone(api.world, name, aa.token)
      ensures o.Wait? ==> SECOND <= o.after <= 10 * SECOND
      ensures api.env.freshReads && old(api.faults) == api.faults ==> o == Done || Forward(|old(api.trace)|)
      ensures api.env.freshReads && old(api.faults) == api.faults ==>
                Told(Some(answer), fs.status, api.trace, |old(api.trace)|)
      ensures answer.o == o
    {
      ghost var w := api.world;
      ghost var mid;
      RevertIsAllowed(aa, rc);
      o, mid := Injectors.Revert(api, name, aa.token, rc);
      RevertCalled(w, mid, aa.token, rc, o, |old(api.trace)|, api.faults == old(api.faults));
      answer := Answer(o, if api.trace == [] then 0 else |api.trace| - 1);
    }

    /** What a pass knows after a call of Revert. */
    lemma RevertCalled(w: World, mid: World, t: Token, rc: RunContext, o: Outcome, from: nat, calm: bool)
      requires Sound() && name in w.mjs && w.mjs[name].finalizer && rc.scenario == name
      requires Injectors.Called(api.env, name, w, mid, api.world, o, Actions.RevertEffect(mid, rc, t), calm)
      requires fs.version <= w.revision && (w.mjs[name].version == fs.version ==> w.mjs[name] == fs)
      requires api.env.freshReads ==>
                 && fs.status == w.mjs[name].status && fs.spec.actions == w.mjs[name].spec.actions
                 && (name in api.env.quiet ==> fs.spec == w.mjs[name].spec && fs.deleting == w.mjs[name].deleting)
      requires api.env.freshReads ==> MayDrain(w, name)
      requires calm ==> Injectors.LastLabel(api, from, mid, CallRevert(name, t, rc))
      ensures Ready() && MayGo() && w.clock <= api.world.clock && (o.Wait? ==> SECOND <= o.after <= 10 * SECOND)
      ensures calm && api.env.freshReads ==> o == Done || Forward(from)
      ensures calm ==> TrueAnswer(name, api.start, api.trace, from, Answer(o, |api.trace| - 1), t, rc)
    {
      CallKeepsReady(w, mid, o, Actions.RevertEffect(mid, rc, t), calm);
      Injectors.RevertWaits(mid, rc, t);
      if calm && api.env.freshReads {
        CallForward(from, mid, t, rc, o);
      }
    }

    lemma RevertIsAllowed(aa: ActiveAction, rc: RunContext)
      requires MayGo()
      requires Ready() && rc.scenario == name
      requires api.env.freshReads ==>
                 && rc == RunContextOf(api.env, name, fs.status.currentRun)
                 && fs.status.activeActions != [] && fs.status.activeActions[|fs.status.activeActions| - 1] == aa
      ensures forall w' | Steady(api.env, name, api.world, w') :: Allowed(api.env, w', CallRevert(name, aa.token, rc))
    {
    }

    /** A Revert call without failures is done, or makes progress, or has to wait. */
    lemma CallForward(from: nat, mid: World, t: Token, rc: RunContext, o: Outcome)
      requires Sound() && api.env.freshReads && rc.scenario == name
      requires Injectors.LastLabel(api, from, mid, CallRevert(name, t, rc))
      requires o == Actions.RevertEffect(mid, rc, t).outcome
      ensures o == Done || Forward(from)
    {
      var last := Theorems.LastStep(api.env, api.start, api.trace);
      CallFalls(api.env, mid, name, t, rc);
      if o != Done {
        LastFallIsProgress(api.start, name, from, api.trace, mid);
      }
    }

    /** patchStatus after a Revert that is not done. */
    method NoteRevert(aa: ActiveAction, f: ActiveAction -> ActiveAction, degraded: bool) returns (err: Option<Problem>)
      requires Ready()
      requires forall a: ActiveAction :: f(a).name == a.name && f(a).atype == a.atype && f(a).token == a.token
      requires api.env.freshReads ==>
                 var list := fs.status.activeActions;
                 list != [] && list[|list| - 1] == aa && FindActiveAction(list, aa.name) == |list| - 1
      modifies this`fs, api`world, api`trace, api`faults
      ensures Since(old(api.trace), old(Writes()), old(api.faults), true)
      ensures api.env.freshReads && err.Some? ==> old(api.faults) < api.faults
      ensures err.None? && api.env.freshReads ==>
                fs.status == NewestReplaced(old(fs.status), f(aa), degraded)
    {
      var mutate := (st: Status) => RevertMutation(st, aa.name, f, degraded);
      forall st
        ensures WeakStatus(Touch, st, mutate(st)) && SameBooks(st, mutate(st))
      {
        RevertMutationTouches(st, aa.name, f, degraded);
      }
      if api.env.freshReads {
        LastMutated(fs.status, aa, f, degraded);
      }
      err := TouchStatus(mutate);
    }

    /** The action is drained: persist its removal. */
    method DropAction(aa: ActiveAction) returns (err: Option<Problem>)
      requires MayGo()
      requires Ready()
      requires api.env.freshReads ==>
                 && fs.status.activeActions != [] && fs.status.activeActions[|fs.status.activeActions| - 1] == aa
                 && Undone(api.world, name, aa.token)
      modifies this`fs, api`world, api`trace, api`faults
      ensures Since(old(api.trace), old(Writes()), old(api.faults), true)
      ensures api.env.freshReads && err.Some? ==> old(api.faults) < api.faults
      ensures err.None? && api.env.freshReads ==>
                && fs.status == old(fs.status).(activeActions :=
                                                  old(fs.status.activeActions)[..|old(fs.status.activeActions)| - 1])
                && Forward(|old(api.trace)|)
    {
      if api.env.freshReads {
        DropFits(aa);
        DropIsLast();
      }
      var mutate := (st: Status) => Dropped(st, aa.name);
      DropsWeakly(mutate, aa.name);
      err := PatchStatus(mutate, Drop(aa.name));
      if err.None? && api.env.freshReads {
        DropForward(old(api.trace), aa.name, fs.status);
      }
    }

    /** The write that drops the newest action is right once its injection is gone. */
    lemma DropFits(aa: ActiveAction)
      requires Ready() && MayGo() && api.env.freshReads
      requires fs.status.activeActions != [] && fs.status.activeActions[|fs.status.activeActions| - 1] == aa
      requires Undone(api.world, name, aa.token)
      ensures var st := api.world.mjs[name].status;
              StrongStatus(api.env, api.world, name, Drop(aa.name), st, Dropped(st, aa.name))
    {
      var st := api.world.mjs[name].status;
      DroppedIsWeak(st, aa.name);
      assert Newest(api.world, name) == aa.token;
      DropIsStrong(api.env, api.world, name, aa.name, Dropped(st, aa.name));
    }

    lemma DropIsLast()
      requires Ready() && api.env.freshReads && fs.status.activeActions != []
      ensures var st := fs.status;
              Dropped(st, st.activeActions[|st.activeActions| - 1].name)
              == st.(activeActions := st.activeActions[..|st.activeActions| - 1])
    {
      NewestIsKnown();
      NewestDropped(fs.status);
    }

    lemma DropForward(before: seq<Label>, action: string, st: Status)
      requires Sound() && api.env.freshReads && |before| < |api.trace|
      requires api.trace[|api.trace| - 1] == PutStatus(name, Drop(action), st)
      ensures Forward(|before|)
    {
      DropIsProgress(api.env, api.start, name, |before|, api.trace, action, st);
    }

    /** Closes the books on a drained run, or releases the resource. */
    method FinishRun(run: Option<CurrentRun>, deleting: bool) returns (r: PassResult)
      requires MayGo()
      requires Ready() && fs.status.activeActions == []
      requires if deleting then fs.deleting && fs.finalizer else MayClose(run)
      modifies this`fs, api`world, api`trace, api`faults
      ensures Since(old(api.trace), old(Writes()), old(api.faults), true)
      ensures !r.RequeueAfter? && !r.Panicked?
      ensures r == Settled ==> deleting && name !in api.world.mjs
      ensures api.env.freshReads && r.Aborted? ==> old(api.faults) < api.faults
      ensures deleting ==> r == Settled || r.Aborted?
      ensures !deleting && run.None? ==> r.Aborted? || (r == Requeue && fs.status.phase == Idle)
      ensures api.env.freshReads && !r.Aborted? && (deleting || run == old(fs.status).currentRun) ==>
                Ended(old(fs.status), deleting, old(api.world).clock)
      ensures api.env.freshReads && !deleting && run.Some? && !r.Aborted? ==>
                && r == Requeue
                && Closed(old(fs.status), fs.status, run.value, old(api.world).clock, api.world.clock)
    {
      if deleting {
        r := Release("");
        return;
      }
      if run.Some? {
        r := CloseRun(run.value);
        return;
      }
      var err := None;
      if fs.status.phase != Idle {
        err := TouchStatus((st: Status) => st.(phase := Idle, revertFailed := false));
      }
      r := if err.Some? then Aborted(err.value) else Requeue;
    }

    /** Removes the finalizer from the version that was looked at: drained, or leaked. */
    method Release(stamp: string) returns (r: PassResult)
      requires Ready() && fs.deleting && fs.finalizer
      requires fs.status.activeActions == [] ||
               (fs.forceRelease &&
                (DistinctNames(fs.status.activeActions) ==> Leaked(api.world, name, fs.status.activeActions, stamp)))
      modifies api`world, api`trace, api`faults
      ensures Since(old(api.trace), old(Writes()), old(api.faults), true)
      ensures r == Settled || r.Aborted?
      ensures r.Aborted? ==> old(api.faults) < api.faults
      ensures Writes() == old(Writes()) || Writes() == old(Writes()) + [DropFinalizer(name, stamp)]
      ensures r == Settled ==>
                && name !in api.world.mjs && Writes() == old(Writes()) + [DropFinalizer(name, stamp)]
                && (api.env.dotless && Leaked(old(api.world), name, fs.status.activeActions, stamp) ==>
                      Leaked(api.world, name, fs.status.activeActions, stamp))
    {
      ghost var w := api.world;
      ReleaseAllowed(stamp);
      var err, _ := api.Update(name, fs, DropFinalizer(name, stamp));
      r := if err.Some? then Aborted(err.value) else Settled;
      if err.None? {
        Released(w, stamp);
      }
    }

    lemma Released(w: World, stamp: string)
      requires api.WroteAfterOthers(name, fs, DropFinalizer(name, stamp), w)
      ensures name !in api.world.mjs
      ensures api.env.dotless && Leaked(w, name, fs.status.activeActions, stamp) ==>
                Leaked(api.world, name, fs.status.activeActions, stamp)
    {
      var mid :| Steady(api.env, name, w, mid) && name in mid.mjs && api.world == Next(mid, DropFinalizer(name, stamp));
      DropShape(mid, name);
      LeaksAndClock(mid, DropFinalizer(name, stamp));
      var list := fs.status.activeActions;
      if api.env.dotless && Leaked(w, name, list, stamp) {
        LeaksStay(w, mid, list, stamp);
      }
    }

    lemma LeaksStay(w: World, w': World, list: seq<ActiveAction>, stamp: string)
      requires api.env.dotless && Leaked(w, name, list, stamp) && LeaksSteady(api.env, name, w, w')
      ensures Leaked(w', name, list, stamp)
    {
      forall i | 0 <= i < |list|
        ensures var key := LeakKey(name, list[i].name, stamp); key in w'.leaked && w'.leaked[key] == list[i].token
      {
        assert name + "." <= LeakKey(name, list[i].name, stamp);
      }
    }

    lemma ReleaseAllowed(stamp: string)
      requires Ready() && fs.deleting && fs.finalizer
      requires fs.status.activeActions == [] ||
               (fs.forceRelease &&
                (DistinctNames(fs.status.activeActions) ==> Leaked(api.world, name, fs.status.activeActions, stamp)))
      ensures api.StaysAllowed(name, fs, DropFinalizer(name, stamp), api.world)
    {
      forall w' | Inv(api.env, w') && Steady(api.env, name, api.world, w') && name in w'.mjs && w'.mjs[name] == fs
        ensures Allowed(api.env, w', DropFinalizer(name, stamp))
      {
        var list := fs.status.activeActions;
        assert WeakMJ(w', name);
        forall i | api.env.dotless && list != [] && 0 <= i < |list|
          ensures var key := LeakKey(name, list[i].name, stamp); key in w'.leaked && w'.leaked[key] == list[i].token
        {
          assert name + "." <= LeakKey(name, list[i].name, stamp);
        }
      }
    }

    method CloseRun(run: CurrentRun) returns (r: PassResult)
      requires MayGo()
      requires Ready() && fs.status.activeActions == [] && MayClose(Some(run))
      modifies this`fs, api`world, api`trace, api`faults
      ensures Since(old(api.trace), old(Writes()), old(api.faults), true)
      ensures r == Requeue || r.Aborted?
      ensures api.env.freshReads && r.Aborted? ==> old(api.faults) < api.faults
      // The books say when the run ended: during this pass.
      ensures api.env.freshReads && !r.Aborted? ==>
                && Closed(old(fs.status), fs.status, run, old(api.world).clock, api.world.clock)
                && Ended(old(fs.status), false, old(api.world).clock)
    {
      ghost var st, earliest := fs.status, api.world.clock;
      var now := Clock();
      var result := RunResult.Reverted;
      if run.expiresAt.Some? && run.expiresAt.value <= now {
        result := Completed;
      }
      var entry := RunHistoryEntry(run.id, run.trigger, run.startedAt, now, result);
      HasBegun();
      var err := WriteBooks(run, entry);
      r := if err.Some? then Aborted(err.value) else Requeue;
      if err.None? && api.env.freshReads {
        FinishedIsClosed(st, run, entry, earliest, api.world.clock);
      }
    }

    lemma HasBegun()
      requires Ready()
      ensures api.env.freshReads ==> Theorems.PastIsPast(api.world, name)
    {
      api.Keeps();
      if api.env.freshReads {
        Theorems.PastIsPastAt(api.env, api.world, name);
      }
    }

    /** Reads the clock, after others have acted. */
    method Clock() returns (now: Time)
      requires Ready()
      modifies api`world, api`trace
      ensures Ready() && old(api.trace) <= api.trace && Writes() == old(Writes()) &&
              Forth(old(api.world), old(fs.spec.actions), old(Writes()))
      ensures now == api.world.clock
    {
      now := api.Now(name);
    }

    method WriteBooks(run: CurrentRun, entry: RunHistoryEntry) returns (err: Option<Problem>)
      requires MayGo()
      requires Ready() && fs.status.activeActions == [] && MayClose(Some(run))
      requires api.env.freshReads ==> EntryOf(run, entry, api.world.clock)
      modifies this`fs, api`world, api`trace, api`faults
      ensures Since(old(api.trace), old(Writes()), old(api.faults), true)
      ensures api.env.freshReads && err.Some? ==> old(api.faults) < api.faults
      ensures err.None? ==>
                name in api.world.mjs && fs == api.world.mjs[name] && old(api.world.clock) <= api.world.clock
      ensures err.None? && api.env.freshReads ==> fs.status == FinishedStatus(old(fs.status), entry)
    {
      var mutate := (st: Status) => FinishedStatus(st, entry);
      err := PatchStatus(mutate, Finish(entry));
    }

    // ---------- maybeStartRun ----------

    /** Starts a run if the spec asks for one, else settles. newID: the UUID drawn. */
    method MaybeStartRun() returns (r: PassResult, ghost newID: string)
      requires Ready() && (api.env.freshReads ==> fs.status.currentRun.None? && fs.status.activeActions == [])
      requires api.env.freshReads ==> ValidActions(fs.spec.actions) && !fs.deleting
      modifies this`fs, api`world, api`trace, api`faults
      ensures Since(old(api.trace), old(Writes()), old(api.faults), false)
      ensures r.Aborted? || r == Settled || r == Requeue
      ensures api.env.freshReads && r.Aborted? ==> old(api.faults) < api.faults
      ensures !r.Aborted? ==> Began(old(fs.spec), old(fs.status), newID, r, old(Writes()), old(api.world).clock)
    {
      ghost var spec, st, earliest := fs.spec, fs.status, api.world.clock;
      var id := api.NewUUID();
      newID := id;
      var desired := DesiredRun(fs.spec, fs.status, id);
      if desired.Nothing? {
        r := Settle();
      } else {
        ghost var began;
        r, began := BeginRun(desired);
        DesiredRunIsAsked(spec, st, id, began);
      }
    }

    /** The run the spec asks for has begun, under the ID drawn if it is enabled, and as long as was asked
        for; or nothing was asked for, and the scenario is idle and ready. Nothing else of the status
        has changed. */
    ghost predicate Began(spec: Spec, st: Status, newID: string, r: PassResult, writes: seq<Label>, earliest: Time)
      reads this, api
    {
      if !spec.enabled && (spec.trigger.None? || spec.trigger.value.runID in {"", st.lastCompletedRunID}) then
        && r == Settled && Grew(writes, Writes(), true) && fs.status.phase == Idle && fs.status.ready.Ready?
        && (api.env.freshReads ==> fs.status == st.(phase := Idle, ready := fs.status.ready))
      else
        && r == Requeue && newID != "" && fs.status.phase == Activating && fs.status.currentRun.Some?
        && (api.env.freshReads ==> fs.status == st.(currentRun := fs.status.currentRun, phase := Activating))
        && exists now :: earliest <= now <= api.world.clock &&
             StartedAsAsked(spec, st.lastCompletedRunID, newID, fs.status.currentRun.value, now)
    }

    method Settle() returns (r: PassResult)
      requires Ready()
      modifies this`fs, api`world, api`trace, api`faults
      ensures Since(old(api.trace), old(Writes()), old(api.faults), true)
      ensures api.env.freshReads && r.Aborted? ==> old(api.faults) < api.faults
      ensures r.Aborted? || (r == Settled && fs.status.phase == Idle && fs.status.ready.Ready?)
      ensures api.env.freshReads && !r.Aborted? ==>
                fs.status == old(fs.status).(phase := Idle, ready := fs.status.ready)
    {
      var err := None;
      if fs.status.phase != Idle || !fs.status.ready.Ready? {
        err := TouchStatus((st: Status) => st.(phase := Idle, ready := Readiness.Ready("Idle")));
      }
      r := if err.Some? then Aborted(err.value) else Settled;
    }

    /** began: when the run started. */
    method BeginRun(desired: Desired) returns (r: PassResult, ghost began: Time)
      requires Ready() && desired.Desired?
      requires api.env.freshReads ==> fs.status.currentRun.None? && fs.status.activeActions == []
      requires api.env.freshReads ==> desired == DesiredRun(fs.spec, fs.status, desired.runID)
      requires api.env.freshReads ==> ValidActions(fs.spec.actions) && !fs.deleting
      modifies this`fs, api`world, api`trace, api`faults
      ensures Since(old(api.trace), old(Writes()), old(api.faults), false)
      ensures api.env.freshReads && r.Aborted? ==> old(api.faults) < api.faults
      ensures r == Requeue || r.Aborted?
      ensures r == Requeue ==>
                && old(api.world.clock) <= began <= api.world.clock && fs.status.phase == Activating
                && fs.status.currentRun == Some(NewRun(desired, began))
                && (api.env.freshReads ==>
                      fs.status == old(fs.status).(currentRun := fs.status.currentRun, phase := Activating))
    {
      var now := Clock();
      began := now;
      var run := NewRun(desired, now);
      var start := (st: Status) => st.(currentRun := Some(run), phase := Activating);
      HasBegun();
      var err := PatchStatus(start, Start(desired, now));
      r := if err.Some? then Aborted(err.value) else Requeue;
    }

    // ---------- reconcileDelete and leakState ----------

    /** Each token of the list is leaked under its own key, and nothing else. */
    ghost predicate EntriesTell(entries: map<string, Token>, list: seq<ActiveAction>, stamp: string) {
      && (forall j | 0 <= j < |list| :: LeakKey(name, list[j].name, stamp) in entries)
      && (forall k | k in entries :: exists j | 0 <= j < |list| :: k == LeakKey(name, list[j].name, stamp))
      && (DistinctNames(list) ==>
            forall j | 0 <= j < |list| :: entries[LeakKey(name, list[j].name, stamp)] == list[j].token)
    }

    /** Appends the remaining tokens to the leak ConfigMap, each under its own key. */
    method LeakState(stamp: string) returns (err: Option<Problem>, ghost entries: map<string, Token>)
      requires Ready()
      modifies api`world, api`trace, api`faults
      ensures Went(old(api.trace), old(api.faults)) && EntriesTell(entries, fs.status.activeActions, stamp)
      ensures Writes() == old(Writes()) || Writes() == old(Writes()) + [Leak(name, entries)]
      ensures err.Some? ==> old(api.faults) < api.faults
      ensures err.None? ==>
                && Ready() && Writes() == old(Writes()) + [Leak(name, entries)]
                && (DistinctNames(fs.status.activeActions) ==>
                      Leaked(api.world, name, fs.status.activeActions, stamp))
    {
      var leaked := LeakEntries(name, fs.status.activeActions, stamp);
      entries := leaked;
      err := WriteLeaks(leaked);
      if err.None? {
        EntriesLeak(api.world, fs.status.activeActions, stamp, leaked);
      }
    }

    lemma EntriesLeak(w: World, list: seq<ActiveAction>, stamp: string, entries: map<string, Token>)
      requires EntriesTell(entries, list, stamp)
      requires forall k | k in entries :: k in w.leaked && w.leaked[k] == entries[k]
      ensures DistinctNames(list) ==> Leaked(w, name, list, stamp)
    {
    }

    /** Adds entries to the leak ConfigMap, retrying on conflicts. */
    method WriteLeaks(entries: map<string, Token>) returns (err: Option<Problem>)
      requires Ready() && forall k | k in entries :: name + "." <= k
      modifies api`world, api`trace, api`faults
      ensures Went(old(api.trace), old(api.faults))
      ensures Writes() == old(Writes()) || Writes() == old(Writes()) + [Leak(name, entries)]
      ensures err.Some? ==> old(api.faults) < api.faults
      ensures err == Some(Conflict) ==> api.faults == old(api.faults) + 5
      ensures err.None? ==>
                && Ready() && Writes() == old(Writes()) + [Leak(name, entries)]
                && forall k | k in entries :: k in api.world.leaked && api.world.leaked[k] == entries[k]
    {
      for tries := 0 to PATCH_RETRIES
        invariant Ready() && old(api.trace) <= api.trace && Writes() == old(Writes())
        invariant api.faults == old(api.faults) + tries
      {
        err := TryLeak(entries);
        if err != Some(Conflict) {
          return;
        }
      }
      err := Some(Conflict);
    }

    /** One round of it. */
    method TryLeak(entries: map<string, Token>) returns (err: Option<Problem>)
      requires Ready() && forall k | k in entries :: name + "." <= k
      modifies api`world, api`trace, api`faults
      ensures Ready() && Went(old(api.trace), old(api.faults))
      ensures Writes() == old(Writes()) || Writes() == old(Writes()) + [Leak(name, entries)]
      ensures api.faults == old(api.faults) + if err.Some? then 1 else 0
      ensures err == Some(Conflict) ==> Writes() == old(Writes())
      ensures err.None? ==>
                && Writes() == old(Writes()) + [Leak(name, entries)]
                && forall k | k in entries :: k in api.world.leaked && api.world.leaked[k] == entries[k]
    {
      err := api.AppendLeaks(name, entries);
    }

    /** Force-release is asked for, and there is something to release. */
    predicate Forced(mj: MaintenanceJob) {
      mj.deleting && mj.finalizer && mj.forceRelease && mj.status.activeActions != []
    }

    /** The pass leaks, and then releases, exactly if it is forced to; otherwise it leaks nothing. */
    ghost predicate WritesFit(mj: MaintenanceJob, writes: seq<Label>)
      reads api
    {
      if Forced(mj) then OnlyReleases(writes, Writes()) else Grew(writes, Writes(), false)
    }

    /** The tokens of the list are leaked, each under its own key, and the resource is released. */
    ghost predicate ReleasedByForce(list: seq<ActiveAction>, stamp: string, writes: seq<Label>)
      reads api
    {
      && name !in api.world.mjs
      && (api.env.dotless && DistinctNames(list) ==> Leaked(api.world, name, list, stamp))
      && exists entries ::
           Writes() == writes + [Leak(name, entries), DropFinalizer(name, stamp)] && EntriesTell(entries, list, stamp)
    }

    /** What a pass does about a resource that is being deleted: nothing without the finalizer; leak and
        release when forced; else drain its newest token, or release it when none is left. */
    ghost predicate Deletes(mj: MaintenanceJob, r: PassResult, answer: Option<Answer>, writes: seq<Label>,
                            stamp: string, from: nat, faults: nat)
      reads this, api
    {
      if !mj.finalizer then r == Settled && Writes() == writes
      else if Forced(mj) then r == Settled && ReleasedByForce(mj.status.activeActions, stamp, writes)
      else
        && Grew(writes, Writes(), true)
        && (r == Settled <==> mj.status.activeActions == []) && (r == Settled ==> name !in api.world.mjs)
        && (r.RequeueAfter? ==> SECOND <= r.after <= 16 * SECOND)
        && (api.env.freshReads && mj.status.activeActions != [] ==>
              && answer.Some? && RevertedOnce(DrainBegun(mj.status), fs.status, r, answer.value.o)
              && (api.faults == faults ==> Told(answer, mj.status, api.trace, from)))
    }

    /** Drains before releasing the finalizer; with force-release the tokens are leaked instead. */
    method ReconcileDelete(stamp: string) returns (r: PassResult, ghost answer: Option<Answer>)
      requires Sound() && name in api.world.mjs && api.Knows(name, fs) && fs.deleting
      requires (fs.finalizer ==> api.world.mjs[name].finalizer) && (api.env.freshReads ==> fs == api.world.mjs[name])
      modifies this`fs, api`world, api`trace, api`faults
      ensures Went(old(api.trace), old(api.faults)) && WritesFit(old(fs), old(Writes()))
      ensures api.env.freshReads ==>
                !r.Panicked? && (r.Aborted? ==> old(api.faults) < api.faults) && Grew(old(Writes()), Writes(), true)
      ensures Forced(old(fs)) ==> !r.Panicked? && (r.Aborted? ==> old(api.faults) < api.faults)
      ensures api.env.freshReads && old(api.faults) == api.faults && old(fs.finalizer) ==>
                if old(fs.status).activeActions != [] then Forward(|old(api.trace)|) else name !in api.world.mjs
      ensures r.Aborted? || r.Panicked? ||
              Deletes(old(fs), r, answer, old(Writes()), stamp, |old(api.trace)|, old(api.faults))
    {
      answer := None;
      if !fs.finalizer {
        return Settled, answer;
      }
      if fs.forceRelease && |fs.status.activeActions| > 0 {
        NoForceRelease();
        r := LeakAndRelease(stamp);
        return;
      }
      r, answer := ReconcileRevert(fs.status.currentRun, true);
    }

    method LeakAndRelease(stamp: string) returns (r: PassResult)
      requires Ready() && Forced(fs)
      modifies api`world, api`trace, api`faults
      ensures Went(old(api.trace), old(api.faults)) && OnlyReleases(old(Writes()), Writes())
      ensures r == Settled || (r.Aborted? && old(api.faults) < api.faults)
      ensures r == Settled ==> ReleasedByForce(fs.status.activeActions, stamp, old(Writes()))
    {
      ghost var writes := Writes();
      var err;
      ghost var entries;
      err, entries := LeakState(stamp);
      if err.Some? {
        return Aborted(err.value);
      }
      r := Release(stamp);
      OnlyReleased(writes, entries, stamp);
      if r == Settled {
        ReleasedWith(entries, fs.status.activeActions, stamp, writes);
      }
    }

    lemma OnlyReleased(writes: seq<Label>, entries: map<string, Token>, stamp: string)
      requires var leaked := writes + [Leak(name, entries)];
               Writes() == leaked || Writes() == leaked + [DropFinalizer(name, stamp)]
      ensures OnlyReleases(writes, Writes())
    {
    }

    lemma ReleasedWith(entries: map<string, Token>, list: seq<ActiveAction>, stamp: string, writes: seq<Label>)
      requires EntriesTell(entries, list, stamp) && name !in api.world.mjs
      requires Writes() == writes + [Leak(name, entries)] + [DropFinalizer(name, stamp)]
      requires api.env.dotless && DistinctNames(list) ==> Leaked(api.world, name, list, stamp)
      ensures ReleasedByForce(list, stamp, writes)
    {
      assert Writes() == writes + [Leak(name, entries), DropFinalizer(name, stamp)];
    }

    lemma NoForceRelease()
      requires Sound() && name in api.world.mjs && (api.env.freshReads ==> fs == api.world.mjs[name])
      ensures api.env.freshReads ==> !fs.forceRelease
    {
      api.Keeps();
      if api.env.freshReads {
        assert StatusOK(api.env, name, api.world.mjs[name]);
      }
    }

    // ---------- Reconcile ----------

    /** Guarded writes of the resource that leave it in place; fs becomes what is stored. */
    method AddFinalizerNow() returns (err: Option<Problem>)
      requires Sound() && api.Knows(name, fs) && !fs.finalizer && !fs.deleting
      modifies this`fs, api`world, api`trace, api`faults
      ensures Since(old(api.trace), old(Writes()), old(api.faults), true)
      ensures err.Some? ==> old(api.faults) < api.faults
      ensures err.None? ==>
                && Ready() && old(api.world.clock) <= api.world.clock && fs.deleting == old(fs.deleting)
                && fs.status == old(fs.status) && fs.spec == old(fs.spec)
    {
      var stored;
      ghost var w := api.world;
      UpdateAllowed(AddFinalizer(name));
      err, stored := api.Update(name, fs, AddFinalizer(name));
      if err.None? {
        UpdateStored(w, fs, AddFinalizer(name));
        fs := stored.value;
        HoldsStored();
      }
    }

    method DisableNow() returns (err: Option<Problem>)
      requires Ready() && (api.env.freshReads ==> OverdueEnabled())
      modifies this`fs, api`world, api`trace, api`faults
      ensures Since(old(api.trace), old(Writes()), old(api.faults), true)
      ensures err.Some? ==> old(api.faults) < api.faults
      ensures err.None? ==>
                && Ready() && !fs.spec.enabled && fs.status == old(fs.status)
                && fs.spec.actions == old(fs.spec.actions) && old(api.world.clock) <= api.world.clock
    {
      var stored;
      ghost var w := api.world;
      UpdateAllowed(DisableExpired(name));
      err, stored := api.Update(name, fs, DisableExpired(name));
      if err.None? {
        UpdateStored(w, fs, DisableExpired(name));
        fs := stored.value;
        HoldsStored();
      }
    }

    /** Whoever holds what is stored is up to date. */
    lemma HoldsStored()
      requires Sound() && name in api.world.mjs && api.world.mjs[name].finalizer
      requires fs == api.world.mjs[name] && fs.version <= api.world.revision
      ensures Ready()
    {
    }

    ghost predicate OverdueEnabled()
      reads this, api
    {
      var run := fs.status.currentRun;
      run.Some? && run.value.trigger == Enabled && Expired(run.value, api.world.clock)
    }

    lemma UpdateAllowed(l: Label)
      requires Sound() && (l == AddFinalizer(name) || l == DisableExpired(name))
      requires l.AddFinalizer? ==> !fs.finalizer && !fs.deleting
      requires l.DisableExpired? && api.env.freshReads ==> OverdueEnabled()
      ensures api.StaysAllowed(name, fs, l, api.world)
    {
      forall w' | Inv(api.env, w') && Steady(api.env, name, api.world, w') && name in w'.mjs && w'.mjs[name] == fs
        ensures Allowed(api.env, w', l)
      {
      }
    }

    lemma UpdateStored(w: World, held: MaintenanceJob, l: Label)
      requires (l == AddFinalizer(name) || l == DisableExpired(name)) && api.WroteAfterOthers(name, held, l, w)
      requires l.DisableExpired? ==> name in w.mjs && w.mjs[name].finalizer
      ensures w.clock <= api.world.clock && name in api.world.mjs
      ensures var mj := api.world.mjs[name];
              && mj.version == api.world.revision && mj.status == held.status && mj.deleting == held.deleting
              && mj.spec.actions == held.spec.actions && mj.finalizer
              && (l.AddFinalizer? ==> mj.spec == held.spec) && (l.DisableExpired? ==> !mj.spec.enabled)
    {
      var mid :| Steady(api.env, name, w, mid) && name in mid.mjs && mid.mjs[name] == held
                 && Allowed(api.env, mid, l) && api.world == Next(mid, l);
      PutShape(mid, name, Edited(held, l));
    }

    /** The pass's first read. A run that is over, or a resource that is, still is when it is read. */
    method Fetch() returns (found: bool, err: Option<Problem>)
      requires Sound()
      modifies this`fs, api`world, api`trace, api`faults
      ensures Sound() && old(api.trace) <= api.trace && Writes() == old(Writes()) && old(api.faults) <= api.faults
      ensures old(api.world.clock) <= api.world.clock
      ensures err.Some? ==> !found && old(api.faults) < api.faults
      ensures found ==>
                && name in api.world.mjs && api.Knows(name, fs)
                && (fs.finalizer ==> api.world.mjs[name].finalizer) && (fs.deleting ==> api.world.mjs[name].deleting)
                && (api.env.freshReads ==> fs == api.world.mjs[name])
      ensures api.env.freshReads && err.None? && !found ==> name !in api.world.mjs
      ensures api.env.freshReads && MustDrain(old(api.world)) ==>
                && MustDrain(api.world) && (found || err.Some?)
                && api.world.mjs[name].status == old(api.world).mjs[name].status
                && api.world.mjs[name].spec.actions == old(api.world).mjs[name].spec.actions
                && (old(api.world).mjs[name].deleting ==> api.world.mjs[name].deleting)
    {
      api.Keeps();
      ghost var w := api.world;
      var got;
      got, err := api.GetMaintenanceJob(name);
      found := got.Some?;
      if found {
        fs := got.value;
      }
      if api.env.freshReads && MustDrain(w) {
        assert StatusOK(api.env, name, w.mjs[name]);
      }
    }

    /** What the cluster held of the resource at a point of the trace. */
    ghost function Held(at: nat): Option<MaintenanceJob>
      reads api
      requires at <= |api.trace|
    {
      var w := Theorems.At(api.start, api.trace, at);
      if name in w.mjs then Some(w.mjs[name]) else None
    }

    /** One pass. Whatever it wrote is legal. seen is the copy it read, at the point read of the trace;
        under fresh reads it is what the cluster held there. What the pass does and when it asks to be
        called again follows from that copy (FollowsFrom). Once the run has expired, is not wanted any
        more or the resource is being deleted, nothing the pass writes records, injects or starts
        anything; and then, unless a call fails, it makes progress, waits for the cluster or a foreign
        Job, or ends the run, exactly if the spec it reads is valid or the resource is being deleted: on
        an invalid spec it only says so. */
    method Reconcile(stamp: string)
        returns (r: PassResult, ghost seen: Option<MaintenanceJob>, ghost read: nat, ghost report: Report)
      requires Sound()
      modifies this`fs, api`world, api`trace, api`faults
      ensures Went(old(api.trace), old(api.faults))
      ensures api.env.freshReads ==> !r.Panicked? && (r.Aborted? ==> old(api.faults) < api.faults)
      ensures |old(api.trace)| <= read <= |api.trace|
      ensures api.env.freshReads && (seen.Some? || old(api.faults) == api.faults) ==> seen == Held(read)
      ensures seen.Some? && Forced(seen.value) ==> !r.Panicked? && (r.Aborted? ==> old(api.faults) < api.faults)
      ensures FollowsFrom(seen, r, report, stamp, old(Writes()), old(api.world.clock), |old(api.trace)|,
                          old(api.faults))
      ensures api.env.freshReads && MustDrain(old(api.world)) ==> Grew(old(Writes()), Writes(), true)
      ensures api.env.freshReads && MustDrain(old(api.world)) && old(api.faults) == api.faults ==>
                && seen.Some? && seen.value.status == old(api.world).mjs[name].status
                && seen.value.spec.actions == old(api.world).mjs[name].spec.actions
                && (old(api.world).mjs[name].deleting ==> seen.value.deleting)
                && Drained(seen.value, |old(api.trace)|, old(Writes()), old(api.world).clock)
                && (seen.value.deleting || ValidActions(seen.value.spec.actions) ==>
                      PassDrainsOrWaits(|old(api.trace)|))
    {
      seen, report := None, Blank;
      ghost var trace, writes, faults, earliest := api.trace, Writes(), api.faults, api.world.clock;
      var found, getErr := Fetch();
      read := |api.trace|;
      HeldNow();
      if getErr.Some? {
        return Aborted(getErr.value), seen, read, report;
      }
      if !found {
        return Settled, seen, read, report;
      }
      seen := Some(fs);
      ghost var trace1, writes1, faults1, earliest1 := api.trace, Writes(), api.faults, api.world.clock;
      r, report := ReconcileFound(stamp);
      HeldThen(trace1, seen);
      FollowsEarlier(seen, r, report, stamp, writes1, earliest1, |trace1|, faults1, writes, earliest, |trace|, faults);
      if Progressed(api.start, name, |trace1|, api.trace) {
        ProgressWidens(api.start, name, |trace|, |trace1|, api.trace, api.trace);
      }
      if api.env.freshReads && faults == api.faults {
        DrainedIsPass(seen.value, trace, writes, earliest);
      }
    }

    lemma HeldNow()
      requires Sound()
      ensures Held(|api.trace|) == if name in api.world.mjs then Some(api.world.mjs[name]) else None
    {
      assert api.trace[..|api.trace|] == api.trace;
    }

    lemma HeldThen(trace: seq<Label>, mj: Option<MaintenanceJob>)
      requires trace <= api.trace
      requires mj == (var w := After(api.start, trace); if name in w.mjs then Some(w.mjs[name]) else None)
               || !api.env.freshReads
      ensures api.env.freshReads ==> mj == Held(|trace|)
    {
      assert trace == api.trace[..|trace|];
    }

    /** The pass since the given point drains the scenario, or found that it has to wait. */
    ghost predicate PassDrainsOrWaits(from: nat)
      reads api
    {
      && from <= |api.trace|
      && (PassDrains(api.start, name, api.trace, from, |api.trace|)
          || exists i | from <= i < |api.trace| :: FoundStuck(api.start, name, api.trace, i))
    }

    lemma DrainedIsPass(mj: MaintenanceJob, before: seq<Label>, writes: seq<Label>, earliest: Time)
      requires Sound() && before <= api.trace
      ensures var w := After(api.start, before);
              Drained(mj, |before|, writes, earliest) && name in w.mjs && mj.status == w.mjs[name].status
              && (mj.deleting || ValidActions(mj.spec.actions)) && (mj.deleting || mj.status.currentRun.Some?)
              ==> PassDrainsOrWaits(|before|)
    {
      assert before == api.trace[..|before|] && api.trace[..|api.trace|] == api.trace;
      if mj.status.activeActions != [] && Forward(|before|) {
        ProgressSplits(api.start, name, |before|, api.trace);
      }
    }

    /** What a pass without failures does about a run that is over, or a resource that is. */
    ghost predicate Drained(mj: MaintenanceJob, from: nat, writes: seq<Label>, earliest: Time)
      reads api
    {
      if mj.deleting || ValidActions(mj.spec.actions) then
        if mj.status.activeActions != [] then Forward(from) else Ended(mj.status, mj.deleting, earliest)
      else
        && name in api.world.mjs && SameTokens(mj.status.activeActions, api.world.mjs[name].status.activeActions)
        && api.world.mjs[name].status.ready == NotReady("InvalidSpec")
        && Writes() == writes + [PutStatus(name, Touch, api.world.mjs[name].status)]
    }

    // ---------- what follows from the copy read ----------

    /** Every result of a pass that is not cut short by an error or a panic, told by the copy it read:
        none and it is settled; one that is being deleted, drained or released; an invalid spec, reported;
        else the course that spec, status and time prescribe, and what that course promises. */
    ghost predicate FollowsFrom(seen: Option<MaintenanceJob>, r: PassResult, report: Report, stamp: string,
                                writes: seq<Label>, earliest: Time, from: nat, faults: nat)
      reads this, api
    {
      && (seen.Some? ==> WritesFit(seen.value, writes))
      && (r.Aborted? || r.Panicked? ||
          match seen
          case None => r == Settled && Writes() == writes
          case Some(mj) =>
            if mj.deleting then Deletes(mj, r, report.answer, writes, stamp, from, faults)
            else if !ValidActions(mj.spec.actions) then
              && r == Settled && Grew(writes, Writes(), true)
              && name in api.world.mjs && api.world.mjs[name].status.ready == NotReady("InvalidSpec")
            else
              && CourseHolds(report, mj.spec, mj.status, earliest)
              && KeepsPromise(report, r, mj.spec, mj.status, writes, earliest, from, faults))
    }

    /** The course is the one that spec, status and the time the pass looked prescribe. */
    ghost predicate CourseHolds(report: Report, spec: Spec, status: Status, earliest: Time)
      reads api
    {
      earliest <= report.looked <= api.world.clock && report.course == CourseOf(spec, status, report.looked)
    }

    /** Starting: see Began. Draining: the newest action is reverted once, and the next pass follows at once
        if it is done, else within 1s to 16s; or the run is closed. Driving: see Drove. */
    ghost predicate KeepsPromise(report: Report, r: PassResult, spec: Spec, status: Status, writes: seq<Label>,
                                 earliest: Time, from: nat, faults: nat)
      reads this, api
    {
      r.Aborted? || r.Panicked? ||
      match report.course
      case Starting => Began(spec, status, report.newID, r, writes, earliest)
      case Draining =>
        && Grew(writes, Writes(), true)
        && (r == Requeue || (r.RequeueAfter? && SECOND <= r.after <= 16 * SECOND))
        && (api.env.freshReads ==>
              && DrainedOne(status, fs.status, r, report.answer, report.looked, api.world.clock)
              && (api.faults == faults ==> Told(report.answer, status, api.trace, from)))
      case Driving =>
        && status.currentRun.Some? && r.RequeueAfter?
        && Drove(status.currentRun.value, r.after, spec.actions, report.asks, report.began, earliest, from, faults)
    }

    lemma DroveEarlier(run: CurrentRun, after: Duration, actions: seq<Action>, asks: seq<Ask>, began: Time,
                       earliest1: Time, from1: nat, faults1: nat, earliest: Time, from: nat, faults: nat)
      requires Drove(run, after, actions, asks, began, earliest1, from1, faults1)
      requires earliest <= earliest1 && from <= from1 && faults <= faults1 <= api.faults
      ensures Drove(run, after, actions, asks, began, earliest, from, faults)
    {
      if api.env.freshReads && api.faults == faults {
        AllTruthfulFrom(name, api.start, api.trace, from, from1, asks, fs.status.activeActions, actions,
                        RunContextOf(api.env, name, Some(run)));
      }
    }

    lemma PromiseEarlier(report: Report, r: PassResult, spec: Spec, status: Status,
                         writes1: seq<Label>, earliest1: Time, from1: nat, faults1: nat,
                         writes: seq<Label>, earliest: Time, from: nat, faults: nat)
      requires KeepsPromise(report, r, spec, status, writes1, earliest1, from1, faults1)
      requires earliest <= earliest1 && from <= from1 && faults <= faults1 <= api.faults && Grew(writes, writes1, true)
      requires writes1 <= Writes()
      ensures KeepsPromise(report, r, spec, status, writes, earliest, from, faults)
    {
      if !r.Aborted? && !r.Panicked? {
        if report.course == Driving {
          DroveEarlier(status.currentRun.value, r.after, spec.actions, report.asks, report.began,
                       earliest1, from1, faults1, earliest, from, faults);
        } else if report.course == Draining && api.env.freshReads && api.faults == faults {
          ToldEarlier(report.answer, status, api.trace, from1, api.trace, from);
        }
      }
    }

    lemma FollowsEarlier(seen: Option<MaintenanceJob>, r: PassResult, report: Report, stamp: string,
                         writes1: seq<Label>, earliest1: Time, from1: nat, faults1: nat,
                         writes: seq<Label>, earliest: Time, from: nat, faults: nat)
      requires seen.Some? && FollowsFrom(seen, r, report, stamp, writes1, earliest1, from1, faults1)
      requires earliest <= earliest1 && from <= from1 && faults <= faults1 <= api.faults && Grew(writes, writes1, true)
      requires writes1 <= Writes() && (seen.value.deleting ==> writes == writes1)
      ensures FollowsFrom(seen, r, report, stamp, writes, earliest, from, faults)
    {
      var mj := seen.value;
      if !r.Aborted? && !r.Panicked? {
        if mj.deleting {
          if api.env.freshReads && api.faults == faults && mj.finalizer && !mj.forceRelease
             && mj.status.activeActions != [] {
            ToldEarlier(report.answer, mj.status, api.trace, from1, api.trace, from);
          }
        } else if ValidActions(mj.spec.actions) {
          PromiseEarlier(report, r, mj.spec, mj.status, writes1, earliest1, from1, faults1,
                         writes, earliest, from, faults);
        }
      }
    }

    // ---------- the parts of a pass ----------

    method ReconcileFound(stamp: string) returns (r: PassResult, ghost report: Report)
      requires Sound() && name in api.world.mjs && api.Knows(name, fs)
      requires (fs.finalizer ==> api.world.mjs[name].finalizer) && (fs.deleting ==> api.world.mjs[name].deleting)
      requires api.env.freshReads ==> fs == api.world.mjs[name]
      modifies this`fs, api`world, api`trace, api`faults
      ensures Went(old(api.trace), old(api.faults)) && old(Writes()) <= Writes()
      ensures api.env.freshReads ==> !r.Panicked? && (r.Aborted? ==> old(api.faults) < api.faults)
      ensures Forced(old(fs)) ==> !r.Panicked? && (r.Aborted? ==> old(api.faults) < api.faults)
      ensures FollowsFrom(Some(old(fs)), r, report, stamp, old(Writes()), old(api.world.clock), |old(api.trace)|,
                          old(api.faults))
      ensures api.env.freshReads && MustDrain(old(api.world)) ==>
                && Grew(old(Writes()), Writes(), true)
                && (old(api.faults) == api.faults ==>
                      Drained(old(fs), |old(api.trace)|, old(Writes()), old(api.world).clock))
    {
      HasFinalizer();
      if fs.deleting {
        ghost var answer;
        r, answer := ReconcileDelete(stamp);
        report := Blank.(answer := answer);
      } else {
        r, report := ReconcileLive(stamp);
      }
    }

    lemma HasFinalizer()
      requires Sound() && name in api.world.mjs && (api.env.freshReads ==> fs == api.world.mjs[name])
      ensures api.env.freshReads && MustDrain(api.world) ==> fs.finalizer
    {
      api.Keeps();
      if api.env.freshReads {
        assert StatusOK(api.env, name, api.world.mjs[name]);
      }
    }

    /** The pass for a resource that is not being deleted: finalizer, validation, then the run. */
    method ReconcileLive(ghost stamp: string) returns (r: PassResult, ghost report: Report)
      requires Sound() && !fs.deleting && name in api.world.mjs && api.Knows(name, fs)
      requires (fs.finalizer ==> api.world.mjs[name].finalizer) && (api.env.freshReads ==> Tracks())
      modifies this`fs, api`world, api`trace, api`faults
      ensures Since(old(api.trace), old(Writes()), old(api.faults), false)
      ensures api.env.freshReads ==> !r.Panicked? && (r.Aborted? ==> old(api.faults) < api.faults)
      ensures FollowsFrom(Some(old(fs)), r, report, stamp, old(Writes()), old(api.world.clock), |old(api.trace)|,
                          old(api.faults))
      ensures api.env.freshReads && OverFor(old(fs), old(api.world.clock)) && old(fs.finalizer) ==>
                && Grew(old(Writes()), Writes(), true)
                && (old(api.faults) == api.faults ==>
                      Drained(old(fs), |old(api.trace)|, old(Writes()), old(api.world).clock))
    {
      ghost var trace, writes, faults, earliest, seen := api.trace, Writes(), api.faults, api.world.clock, fs;
      report := Blank;
      if !fs.finalizer {
        var err := AddFinalizerNow();
        if err.Some? {
          return Aborted(err.value), report;
        }
      }
      ghost var trace1, writes1, faults1, earliest1, given := api.trace, Writes(), api.faults, api.world.clock, fs;
      r, report := ReconcileChecked(stamp);
      FollowsEarlier(Some(given), r, report, stamp, writes1, earliest1, |trace1|, faults1,
                     writes, earliest, |trace|, faults);
      FollowsSame(given, seen, r, report, stamp, writes, earliest, |trace|, faults);
    }

    /** A finalizer more does not change what follows. */
    lemma FollowsSame(given: MaintenanceJob, seen: MaintenanceJob, r: PassResult, report: Report, stamp: string,
                      writes: seq<Label>, earliest: Time, from: nat, faults: nat)
      requires FollowsFrom(Some(given), r, report, stamp, writes, earliest, from, faults)
      requires given.spec == seen.spec && given.status == seen.status && !given.deleting && !seen.deleting
      ensures FollowsFrom(Some(seen), r, report, stamp, writes, earliest, from, faults)
    {
    }

    /** Validates the spec; nothing is done about an invalid one but to say so. */
    method ReconcileChecked(ghost stamp: string) returns (r: PassResult, ghost report: Report)
      requires Ready() && !fs.deleting
      modifies this`fs, api`world, api`trace, api`faults
      ensures Since(old(api.trace), old(Writes()), old(api.faults), false)
      ensures api.env.freshReads ==> !r.Panicked? && (r.Aborted? ==> old(api.faults) < api.faults)
      ensures FollowsFrom(Some(old(fs)), r, report, stamp, old(Writes()), old(api.world.clock), |old(api.trace)|,
                          old(api.faults))
      ensures !ValidActions(old(fs.spec.actions)) && !r.Aborted? ==>
                && r == Settled && name in api.world.mjs && fs == api.world.mjs[name]
                && fs.status == old(api.world).mjs[name].status.(ready := NotReady("InvalidSpec"))
                && Writes() == old(Writes()) + [PutStatus(name, Touch, fs.status)]
      ensures OverFor(old(fs), old(api.world.clock)) ==> Grew(old(Writes()), Writes(), true)
      ensures api.env.freshReads && OverFor(old(fs), old(api.world.clock)) && old(api.faults) == api.faults ==>
                Drained(old(fs), |old(api.trace)|, old(Writes()), old(api.world).clock)
    {
      report := Blank;
      var specErr := ValidateSpec(fs.spec);
      if specErr.Some? {
        var err := TouchStatus((st: Status) => st.(ready := NotReady("InvalidSpec")));
        r := if err.Some? then Aborted(err.value) else Settled;
      } else {
        r, report := ReconcileValid();
      }
    }

    /** The run has expired, or no user keeps wanting it. */
    ghost predicate OverFor(mj: MaintenanceJob, now: Time)
    {
      && mj.status.currentRun.Some?
      && (Expired(mj.status.currentRun.value, now)
          || (name in api.env.quiet && !RunStillWanted(mj.spec, mj.status.currentRun.value)))
    }

    /** The run is over, or the resource is. */
    ghost predicate MustDrain(w: World)
    {
      name in w.mjs && ((w.mjs[name].deleting && w.mjs[name].finalizer) || OverFor(w.mjs[name], w.clock))
    }

    /** The pass after validation: start, drain or drive, as the copy and the time it reads say. */
    method ReconcileValid() returns (r: PassResult, ghost report: Report)
      requires Ready() && ValidActions(fs.spec.actions) && !fs.deleting
      modifies this`fs, api`world, api`trace, api`faults
      ensures Since(old(api.trace), old(Writes()), old(api.faults), false)
      ensures api.env.freshReads ==> !r.Panicked? && (r.Aborted? ==> old(api.faults) < api.faults)
      ensures CourseHolds(report, old(fs.spec), old(fs.status), old(api.world.clock))
      ensures KeepsPromise(report, r, old(fs.spec), old(fs.status), old(Writes()), old(api.world.clock),
                           |old(api.trace)|, old(api.faults))
      ensures report.course == Draining ==>
                && Grew(old(Writes()), Writes(), true)
                && DrainKept(old(fs.status), report.looked, |old(api.trace)|, old(api.faults))
    {
      if api.env.freshReads {
        TokensHaveRun();
      }
      if fs.status.currentRun.Some? {
        r, report := ReconcileRun(fs.status.currentRun.value);
      } else {
        r, report := ReconcileIdle();
      }
    }

    /** The pass without a run: start one, or settle. */
    method ReconcileIdle() returns (r: PassResult, ghost report: Report)
      requires Ready() && ValidActions(fs.spec.actions) && !fs.deleting && fs.status.currentRun.None?
      requires api.env.freshReads ==> fs.status.activeActions == []
      modifies this`fs, api`world, api`trace, api`faults
      ensures Since(old(api.trace), old(Writes()), old(api.faults), false)
      ensures api.env.freshReads ==> !r.Panicked? && (r.Aborted? ==> old(api.faults) < api.faults)
      ensures CourseHolds(report, old(fs.spec), old(fs.status), old(api.world.clock))
      ensures KeepsPromise(report, r, old(fs.spec), old(fs.status), old(Writes()), old(api.world.clock),
                           |old(api.trace)|, old(api.faults))
      ensures report.course == Draining ==> !api.env.freshReads && Grew(old(Writes()), Writes(), true)
    {
      ghost var clock := api.world.clock;
      if |fs.status.activeActions| > 0 {
        // Leftovers without a run: only a stale copy can show them.
        ghost var answer;
        r, answer := ReconcileRevert(None, false);
        report := Blank.(course := Draining, looked := clock, answer := answer);
      } else {
        ghost var newID;
        r, newID := MaybeStartRun();
        report := Blank.(looked := clock, newID := newID);
      }
      ClockRan(old(api.trace));
      assert report.course == CourseOf(old(fs.spec), old(fs.status), clock);
    }

    /** A pass without failures brings the drain forward, or ends the run. */
    ghost predicate DrainKept(status: Status, looked: Time, from: nat, faults: nat)
      reads api
    {
      api.env.freshReads && faults == api.faults ==>
        if status.activeActions != [] then Forward(from) else Ended(status, false, looked)
    }

    lemma DrainKeptEarlier(status: Status, looked1: Time, from1: nat, faults1: nat, looked: Time, from: nat,
                           faults: nat)
      requires DrainKept(status, looked1, from1, faults1)
      requires looked <= looked1 && from <= from1 && faults <= faults1 <= api.faults
      ensures DrainKept(status, looked, from, faults)
    {
      if Forward(from1) {
        ProgressWidens(api.start, name, from, from1, api.trace, api.trace);
      }
    }

    /** The pass for a run: drain it when it has expired or is not wanted any more, else drive it. */
    method ReconcileRun(run: CurrentRun) returns (r: PassResult, ghost report: Report)
      requires Ready() && ValidActions(fs.spec.actions) && fs.status.currentRun == Some(run)
      modifies this`fs, api`world, api`trace, api`faults
      ensures Since(old(api.trace), old(Writes()), old(api.faults), false)
      ensures api.env.freshReads ==> !r.Panicked? && (r.Aborted? ==> old(api.faults) < api.faults)
      ensures CourseHolds(report, old(fs.spec), old(fs.status), old(api.world.clock))
      ensures KeepsPromise(report, r, old(fs.spec), old(fs.status), old(Writes()), old(api.world.clock),
                           |old(api.trace)|, old(api.faults))
      ensures report.course == Draining ==>
                Grew(old(Writes()), Writes(), true)
                && DrainKept(old(fs.status), report.looked, |old(api.trace)|, old(api.faults))
    {
      ghost var trace, writes, faults, earliest := api.trace, Writes(), api.faults, api.world.clock;
      ghost var spec, status := fs.spec, fs.status;
      var now := Clock();
      ghost var trace1 := api.trace;
      var expired := run.expiresAt.Some? && run.expiresAt.value <= now;
      if expired || !RunStillWanted(fs.spec, run) {
        r, report := DrainOver(run, expired, now);
        DrainKeptEarlier(status, now, |trace1|, faults, now, |trace|, faults);
      } else {
        RunLasts(run);
        r, report := DriveRun(run, now);
      }
      PromiseEarlier(report, r, spec, status, writes, now, |trace1|, faults, writes, earliest, |trace|, faults);
      ClockRan(trace1);
      assert report.course == CourseOf(spec, status, now);
    }

    method DrainOver(run: CurrentRun, expired: bool, ghost looked: Time) returns (r: PassResult, ghost report: Report)
      requires Ready() && ValidActions(fs.spec.actions) && fs.status.currentRun == Some(run)
      requires if expired then Expired(run, api.world.clock) else !RunStillWanted(fs.spec, run)
      modifies this`fs, api`world, api`trace, api`faults
      ensures Since(old(api.trace), old(Writes()), old(api.faults), true)
      ensures api.env.freshReads ==> !r.Panicked? && (r.Aborted? ==> old(api.faults) < api.faults)
      requires looked <= api.world.clock
      ensures report.course == Draining && report.looked == looked
      ensures KeepsPromise(report, r, old(fs.spec), old(fs.status), old(Writes()), old(api.world.clock),
                           |old(api.trace)|, old(api.faults))
      ensures DrainKept(old(fs.status), report.looked, |old(api.trace)|, old(api.faults))
    {
      ghost var answer;
      r, answer := DrainRun(run, expired);
      report := Blank.(course := Draining, looked := looked, answer := answer);
    }

    method DriveRun(run: CurrentRun, ghost looked: Time) returns (r: PassResult, ghost report: Report)
      requires Ready() && InRun(run) && fs.status.currentRun == Some(run)
      modifies this`fs, api`world, api`trace, api`faults
      ensures Since(old(api.trace), old(Writes()), old(api.faults), false)
      ensures api.env.freshReads ==> !r.Panicked? && (r.Aborted? ==> old(api.faults) < api.faults)
      ensures report.course == Driving && report.looked == looked
      ensures KeepsPromise(report, r, old(fs.spec), old(fs.status), old(Writes()), old(api.world.clock),
                           |old(api.trace)|, old(api.faults))
    {
      ghost var asks, began, marks;
      r, asks, began, marks := ReconcileActivate(run);
      report := Blank.(course := Driving, looked := looked, asks := asks, began := began);
    }

    lemma RunLasts(run: CurrentRun)
      requires Ready() && fs.status.currentRun == Some(run) && !Expired(run, api.world.clock)
      ensures api.env.freshReads ==> Lasting(run)
    {
      api.Keeps();
      if api.env.freshReads {
        assert RunOK(api.world, name);
      }
    }

    /** Turns an expired enabled run off before draining it. */
    method DrainRun(run: CurrentRun, expired: bool) returns (r: PassResult, ghost answer: Option<Answer>)
      requires Ready() && ValidActions(fs.spec.actions) && fs.status.currentRun == Some(run)
      requires if expired then Expired(run, api.world.clock) else !RunStillWanted(fs.spec, run)
      modifies this`fs, api`world, api`trace, api`faults
      ensures Since(old(api.trace), old(Writes()), old(api.faults), true)
      ensures api.env.freshReads ==> !r.Panicked? && (r.Aborted? ==> old(api.faults) < api.faults)
      ensures api.env.freshReads && !r.Aborted? ==>
                DrainedOne(old(fs.status), fs.status, r, answer, old(api.world).clock, api.world.clock)
      ensures api.env.freshReads && old(api.faults) == api.faults ==>
                Told(answer, old(fs.status), api.trace, |old(api.trace)|)
      ensures r.RequeueAfter? ==> SECOND <= r.after <= 16 * SECOND
      ensures r != Settled && DrainKept(old(fs.status), old(api.world).clock, |old(api.trace)|, old(api.faults))
    {
      answer := None;
      var err := DisableOver(run, expired);
      if err.Some? {
        return Aborted(err.value), answer;
      }
      ghost var disabled, looked, faults := api.trace, api.world.clock, api.faults;
      r, answer := ReconcileRevert(Some(run), false);
      DrainRanEarlier(old(fs.status), r, answer, looked, |disabled|, faults,
                      old(api.world).clock, |old(api.trace)|, old(api.faults));
    }

    /** What a drain promises since some point it promises since an earlier one. */
    lemma DrainRanEarlier(st: Status, r: PassResult, answer: Option<Answer>, looked1: Time, from1: nat, faults1: nat,
                          looked: Time, from: nat, faults: nat)
      requires looked <= looked1 && from <= from1 && faults <= faults1 <= api.faults
      requires DrainKept(st, looked1, from1, faults1)
      requires api.env.freshReads && api.faults == faults1 ==> Told(answer, st, api.trace, from1)
      requires api.env.freshReads && !r.Aborted? ==> DrainedOne(st, fs.status, r, answer, looked1, api.world.clock)
      ensures DrainKept(st, looked, from, faults)
      ensures api.env.freshReads && api.faults == faults ==> Told(answer, st, api.trace, from)
      ensures api.env.freshReads && !r.Aborted? ==> DrainedOne(st, fs.status, r, answer, looked, api.world.clock)
    {
      DrainKeptEarlier(st, looked1, from1, faults1, looked, from, faults);
      if api.env.freshReads && api.faults == faults {
        ToldEarlier(answer, st, api.trace, from1, api.trace, from);
      }
    }

    method DisableOver(run: CurrentRun, expired: bool) returns (err: Option<Problem>)
      requires Ready() && ValidActions(fs.spec.actions) && fs.status.currentRun == Some(run)
      requires if expired then Expired(run, api.world.clock) else !RunStillWanted(fs.spec, run)
      modifies this`fs, api`world, api`trace, api`faults
      ensures Since(old(api.trace), old(Writes()), old(api.faults), true)
      ensures err.Some? ==> old(api.faults) < api.faults
      ensures err.None? ==>
                && Ready() && MayClose(Some(run)) && MayGo() && fs.status == old(fs.status)
                && old(api.world.clock) <= api.world.clock
    {
      if expired && run.trigger == Enabled && fs.spec.enabled {
        err := DisableNow();
      } else {
        err := None;
      }
    }

    lemma ClockRan(before: seq<Label>)
      requires Sound() && before <= api.trace
      ensures After(api.start, before).clock <= api.world.clock
    {
      Theorems.ClockRuns(api.env, api.start, before, api.trace);
    }

    lemma TokensHaveRun()
      requires Ready() && api.env.freshReads
      ensures fs.status.currentRun.None? ==> fs.status.activeActions == []
    {
      api.Keeps();
      assert StatusOK(api.env, name, api.world.mjs[name]);
    }
  }

  /** The entries that LeakState adds. */
  method LeakEntries(name: string, list: seq<ActiveAction>, stamp: string) returns (entries: map<string, Token>)
    ensures forall k | k in entries :: name + "." <= k
    ensures forall j | 0 <= j < |list| :: LeakKey(name, list[j].name, stamp) in entries
    ensures forall k | k in entries :: exists j | 0 <= j < |list| :: k == LeakKey(name, list[j].name, stamp)
    ensures DistinctNames(list) ==>
              forall j | 0 <= j < |list| :: entries[LeakKey(name, list[j].name, stamp)] == list[j].token
  {
    entries := map[];
    for i := 0 to |list|
      invariant forall k | k in entries :: name + "." <= k
      invariant forall j | 0 <= j < i :: LeakKey(name, list[j].name, stamp) in entries
      invariant forall k | k in entries :: exists j | 0 <= j < i :: k == LeakKey(name, list[j].name, stamp)
      invariant DistinctNames(list) ==>
                  forall j | 0 <= j < i :: entries[LeakKey(name, list[j].name, stamp)] == list[j].token
    {
      if DistinctNames(list) {
        Theorems.KeysDiffer(name, list, stamp);
      }
      entries := entries[LeakKey(name, list[i].name, stamp) := list[i].token];
    }
  }
}
