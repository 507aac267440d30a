/** Dead-man timers: what a run made in the cluster ends by itself, not before the run and not long
    after it, even if the operator never comes back. Persisted times have whole seconds. */
module Deadman {
  import opened Prelude
  import opened Api
  import opened Actions
  import opened Helpers
  import opened Protocol
  import opened Invariants
  import opened Theorems

  /** The instant the cluster ends a Job that is still running. */
  function JobEnd(job: Job): Time {
    job.createdAt + job.deadlineSeconds * SECOND
  }

  /** Truncation to whole seconds gives away less than a second, and nothing of a whole second. */
  lemma WholePartBounds(length: Duration, margin: Duration)
    requires length > 0 && length % SECOND == 0
    ensures var d := length + margin;
            var whole := (if d >= 0 then d / SECOND else -((-d) / SECOND)) * SECOND;
            && (margin >= 0 ==> length <= whole <= length + margin)
            && (margin < 0 ==> whole < length)
  {
    var k := length / SECOND;
    assert length == k * SECOND;
    var d := length + margin;
    if margin >= 0 {
      assert d / SECOND >= k;
    } else if d < 0 {
      assert (-d) / SECOND >= 0;
    } else {
      assert d / SECOND < k;
    }
  }

  /** A Workload Job that ends by itself not before its run, and by expiry, or its own start if that was
      later, plus run length plus margin. */
  ghost predicate EndsInTime(run: CurrentRun, job: Job, margin: Duration)
    requires run.expiresAt.Some?
  {
    var expiry := run.expiresAt.value;
    && expiry <= JobEnd(job)
    && JobEnd(job) <= (if job.createdAt <= expiry then expiry else job.createdAt) + RunLength(run) + margin
  }

  lemma TimerEndsInTime(run: CurrentRun, job: Job, margin: Duration)
    requires WholeSeconds(run) && run.expiresAt.Some? && Lasting(run) && margin >= 0
    requires run.startedAt <= job.createdAt && job.deadlineSeconds == DeadlineSeconds(margin, RunLength(run))
    ensures EndsInTime(run, job, margin)
  {
    WholeDifference(run.expiresAt.value, run.startedAt);
    WholePartBounds(RunLength(run), margin);
  }

  /** Wherever a run of the system or a crash has led: every Workload Job of a scenario was made during
      the run in flight; and if that run is bounded and the margin it was made with is not negative,
      it ends in time even if the operator never comes back. In an unbounded run it lasts a day. */
  lemma WorkloadDeadman(env: Env, now: World, s: string, n: string)
    requires EnvOK(env) && env.freshReads && Reachable(env, now)
    requires n in now.jobs && now.jobs[n].scenario == Some(s) && now.jobs[n].origin.Load?
    ensures RunOf(now, s).Some? && RunOf(now, s).value.startedAt <= now.jobs[n].createdAt
    ensures var run, margin := RunOf(now, s).value, now.jobs[n].origin.margin;
            && (run.expiresAt.Some? && margin >= 0 ==> EndsInTime(run, now.jobs[n], margin))
            && (run.expiresAt.None? ==> JobEnd(now.jobs[n]) == now.jobs[n].createdAt + 24 * HOUR)
  {
    ReachableInv(env, now);
    assert JobOK(env, now, n) && RunOK(now, s);
    TimerFits(RunOf(now, s).value, now.jobs[n], now.jobs[n].origin.margin);
  }

  lemma TimerFits(run: CurrentRun, job: Job, margin: Duration)
    requires WholeSeconds(run) && Lasting(run)
    requires run.startedAt <= job.createdAt && job.deadlineSeconds == DeadlineSeconds(margin, RunLength(run))
    ensures run.expiresAt.Some? && margin >= 0 ==> EndsInTime(run, job, margin)
    ensures run.expiresAt.None? ==> JobEnd(job) == job.createdAt + 24 * HOUR
  {
    if run.expiresAt.None? {
      assert UNBOUNDED_RUN_DEADLINE == 24 * 3600 * SECOND;
      MultipleIsWhole(24 * 3600);
    } else if margin >= 0 {
      TimerEndsInTime(run, job, margin);
    }
  }

  /** The same for every chaos object with the operator's timer, and its fixed margin. */
  lemma ChaosDeadman(env: Env, now: World, s: string, k: ChaosKey)
    requires EnvOK(env) && env.freshReads && Reachable(env, now)
    requires k in now.chaos && now.chaos[k].scenario == Some(s)
    ensures RunOf(now, s).Some? && RunOf(now, s).value.startedAt <= now.chaos[k].createdAt
    ensures var run, obj := RunOf(now, s).value, now.chaos[k];
            obj.lifetime.Some? ==>
              var end := obj.createdAt + obj.lifetime.value;
              match run.expiresAt
              case None => end == obj.createdAt + 24 * HOUR
              case Some(expiry) =>
                var late := if obj.createdAt <= expiry then expiry else obj.createdAt;
                expiry <= end <= late + RunLength(run) + 5 * MINUTE
  {
    ReachableInv(env, now);
    assert ChaosOK(now, k) && RunOK(now, s);
  }

  lemma WholeDifference(a: Time, b: Time)
    requires a % SECOND == 0 && b % SECOND == 0
    ensures (a - b) % SECOND == 0
  {
    assert a == a / SECOND * SECOND && b == b / SECOND * SECOND;
    MultipleIsWhole(a / SECOND - b / SECOND);
  }

  /** Whatever Ensure creates bears the scenario's label and a timer that starts now: a Workload Job one
      with the spec's margin, five minutes by default, a chaos object one exactly if its spec does not
      bring its own, an exec Job one of twenty minutes. */
  lemma LaunchSetsTimers(w: World, rc: RunContext, a: Action, t: Token, settled: bool)
    requires ShapeOK(a) && a.atype == TokenType(t) && (t.WorkloadToken? ==> a.workload.value.name == t.name)
    ensures var w' := EnsureEffect(w, rc, a, t, settled).world;
            match t
            case WorkloadToken(n) =>
              n !in w.jobs ==>
                && n in w'.jobs && w'.jobs[n].scenario == Some(rc.scenario) && w'.jobs[n].createdAt == w.clock
                && w'.jobs[n].state == Running && !w'.jobs[n].deleting
                && var margin := if a.workload.value.deadlineMargin.Some? then a.workload.value.deadlineMargin.value
                                 else 5 * MINUTE;
                   && w'.jobs[n].origin == Load(margin)
                   && (rc.runDuration <= 0 ==> JobEnd(w'.jobs[n]) == w.clock + 24 * HOUR)
                   && (rc.runDuration > 0 && margin >= 0 ==>
                         var end := w.clock + rc.runDuration + margin; end - SECOND < JobEnd(w'.jobs[n]) <= end)
            case ChaosMeshToken(kind, n) =>
              var key := ChaosKey(kind, n);
              key !in w.chaos ==>
                && key in w'.chaos && w'.chaos[key].scenario == Some(rc.scenario)
                && w'.chaos[key].createdAt == w.clock && !w'.chaos[key].deleting
                && w'.chaos[key].lifetime
                   == if a.chaosMesh.value.ownDuration then None
                      else if rc.runDuration > 0 then Some(rc.runDuration + 5 * MINUTE)
                      else Some(24 * HOUR)
            case DBExecToken(n, _, _) =>
              n !in w.jobs ==>
                && n in w'.jobs && w'.jobs[n].scenario == Some(rc.scenario)
                && w'.jobs[n].state == Running && !w'.jobs[n].deleting
                && JobEnd(w'.jobs[n]) == w.clock + 20 * MINUTE
            case _ => w'.jobs == w.jobs && w'.chaos == w.chaos
  {
  }

  /** The margin condition is exact: only a negative margin lets a Job end before its run. */
  lemma OutlivesIffMarginNotNegative(env: Env, s: string, run: CurrentRun, wa: WorkloadAction)
    requires run.expiresAt.Some? && WholeSeconds(run) && RunLength(run) > 0
    ensures (forall w: World :: run.startedAt <= w.clock <= run.expiresAt.value ==>
               run.expiresAt.value <= JobEnd(LoadJob(w, RunContextOf(env, s, Some(run)), wa)))
            <==> Margin(wa) >= 0
  {
    var rc := RunContextOf(env, s, Some(run));
    WholeDifference(run.expiresAt.value, run.startedAt);
    WholePartBounds(RunLength(run), Margin(wa));
    var atStart := World(map[], map[], map[], map[], map[], run.startedAt, 0, map[]);
    assert JobEnd(LoadJob(atStart, rc, wa)) == run.startedAt + DeadlineSeconds(Margin(wa), rc.runDuration) * SECOND;
    forall w: World | Margin(wa) >= 0 && run.startedAt <= w.clock
      ensures run.expiresAt.value <= JobEnd(LoadJob(w, rc, wa))
    {
      assert JobEnd(LoadJob(w, rc, wa)) == w.clock + DeadlineSeconds(Margin(wa), rc.runDuration) * SECOND;
    }
  }
}
