/** The decision helpers of the controller: spec validation, which run is wanted, the capped
    history, requeue and backoff arithmetic. */
module Helpers {
  import opened Prelude
  import opened Api

  const HISTORY_CAP := 10
  const STEADY_STATE_RESYNC: Duration := 30 * SECOND
  const DEGRADED_AFTER_FAILURES := 5

  // ---------- spec validation ----------

  /** Exactly the configuration field of the action's type is set. */
  predicate ShapeOK(a: Action) {
    && !a.atype.OtherType?
    && a.workload.Some? == (a.atype == WorkloadType)
    && a.scale.Some? == (a.atype == ScaleType)
    && a.deployImage.Some? == (a.atype == DeployImageType)
    && a.chaosMesh.Some? == (a.atype == ChaosMeshType)
    && a.dbExec.Some? == (a.atype == DBExecType)
  }

  predicate ValidActions(actions: seq<Action>) {
    && actions != []
    && (forall i | 0 <= i < |actions| :: ShapeOK(actions[i]))
    && (forall i, j | 0 <= i < j < |actions| :: actions[i].name != actions[j].name)
  }

  datatype SpecError = NoActions | DuplicateName(index: nat) | WrongShape(index: nat)

  /** The error names the first offending action, and the spec passes exactly when it is valid. */
  method ValidateSpec(spec: Spec) returns (err: Option<SpecError>)
    ensures err.None? <==> ValidActions(spec.actions)
    ensures err == Some(NoActions) <==> spec.actions == []
    ensures err.Some? && !err.value.NoActions? ==>
              && err.value.index < |spec.actions|
              && ValidActions(spec.actions[..err.value.index]) == (err.value.index > 0)
              && (err.value.DuplicateName? <==>
                    exists j | 0 <= j < err.value.index :: spec.actions[j].name == spec.actions[err.value.index].name)
  {
    if |spec.actions| == 0 {
      return Some(NoActions);
    }
    var seen: set<string> := {};
    for i := 0 to |spec.actions|
      invariant seen == set j | 0 <= j < i :: spec.actions[j].name
      invariant i > 0 ==> ValidActions(spec.actions[..i])
    {
      var a := spec.actions[i];
      if a.name in seen {
        return Some(DuplicateName(i));
      }
      assert forall j | 0 <= j < i :: spec.actions[j].name in seen;
      seen := seen + {a.name};
      if !ShapeOK(a) {
        return Some(WrongShape(i));
      }
    }
    assert spec.actions[..|spec.actions|] == spec.actions;
    return None;
  }

  // ---------- which run ----------

  predicate Expired(run: CurrentRun, now: Time) {
    run.expiresAt.Some? && run.expiresAt.value <= now
  }

  /** A manual trigger that would start a run now. */
  predicate PendingTrigger(spec: Spec, lastCompleted: string) {
    spec.trigger.Some? && spec.trigger.value.runID != "" && spec.trigger.value.runID != lastCompleted
  }

  predicate Wanted(spec: Spec, lastCompleted: string) {
    spec.enabled || PendingTrigger(spec, lastCompleted)
  }

  datatype Desired = Nothing | Desired(trigger: RunTrigger, runID: string, duration: Duration)

  /** newID stands for the UUID drawn for an enabled run. Sticky enabled wins over a trigger. */
  function DesiredRun(spec: Spec, status: Status, newID: string): (d: Desired)
    ensures d.Nothing? <==> !Wanted(spec, status.lastCompletedRunID)
  {
    var duration := if spec.duration.Some? then spec.duration.value else 0;
    if spec.enabled then Desired(Enabled, newID, duration)
    else if PendingTrigger(spec, status.lastCompletedRunID) then
      var t := spec.trigger.value;
      Desired(Manual, t.runID, if t.duration.Some? then t.duration.value else duration)
    else Nothing
  }

  /** API times are stored with second granularity. */
  function TruncateToSecond(t: Time): Time {
    t / SECOND * SECOND
  }

  /** The run that a start at `now` persists. */
  function NewRun(desired: Desired, now: Time): CurrentRun
    requires desired.Desired?
  {
    CurrentRun(desired.runID, desired.trigger, TruncateToSecond(now),
               if desired.duration > 0 then Some(TruncateToSecond(now + desired.duration)) else None)
  }

  /** Truncation moves start and expiry back by less than a second each, so the run is as long as
      was asked for, give or take less than a second; it never starts late nor ends after it should. */
  lemma NewRunKeepsDuration(desired: Desired, now: Time)
    requires desired.Desired?
    ensures var run := NewRun(desired, now);
            && (run.expiresAt.Some? <==> desired.duration > 0)
            && now - SECOND < run.startedAt <= now
            && (desired.duration > 0 ==>
                  && now + desired.duration - SECOND < run.expiresAt.value <= now + desired.duration
                  && run.startedAt <= run.expiresAt.value
                  && desired.duration - SECOND < run.expiresAt.value - run.startedAt < desired.duration + SECOND)
  {
  }

  /** A run that started at `now` is as long as was asked for: to within a second, or without end when
      nothing or no positive length was asked for. */
  predicate LastsAsAsked(run: CurrentRun, asked: Option<Duration>, now: Time) {
    && now - SECOND < run.startedAt <= now
    && if asked.None? || asked.value <= 0 then run.expiresAt.None?
       else
         && run.expiresAt.Some? && run.startedAt <= run.expiresAt.value
         && now + asked.value - SECOND < run.expiresAt.value <= now + asked.value
  }

  /** The run that started at `now` is what the spec asked for: as long as it says when enabled, under
      the ID drawn; else the triggered one, as long as the trigger or else the spec says. */
  predicate StartedAsAsked(spec: Spec, lastCompleted: string, newID: string, run: CurrentRun, now: Time) {
    if spec.enabled then run.trigger == Enabled && run.id == newID && LastsAsAsked(run, spec.duration, now)
    else
      && spec.trigger.Some? && run.trigger == Manual
      && run.id == spec.trigger.value.runID && run.id != "" && run.id != lastCompleted
      && LastsAsAsked(run, if spec.trigger.value.duration.Some? then spec.trigger.value.duration else spec.duration,
                      now)
  }

  /** A run is proposed exactly if the spec is enabled or its trigger has an ID that was not the last to
      complete, and what is started then is what the spec asks for. */
  lemma DesiredRunIsAsked(spec: Spec, status: Status, newID: string, now: Time)
    ensures var d := DesiredRun(spec, status, newID);
            && (d.Desired? <==>
                  spec.enabled
                  || (spec.trigger.Some? && spec.trigger.value.runID !in {"", status.lastCompletedRunID}))
            && (d.Desired? ==> StartedAsAsked(spec, status.lastCompletedRunID, newID, NewRun(d, now), now))
  {
    var d := DesiredRun(spec, status, newID);
    if d.Desired? {
      NewRunKeepsDuration(d, now);
    }
  }

  /** As persisted by a run's start. */
  predicate WholeSeconds(run: CurrentRun) {
    && run.startedAt % SECOND == 0
    && (run.expiresAt.Some? ==> run.expiresAt.value % SECOND == 0 && run.startedAt <= run.expiresAt.value)
  }

  lemma MultipleIsWhole(k: int)
    ensures (k * SECOND) % SECOND == 0 && (k * SECOND) / SECOND == k
  {
  }

  lemma NewRunsAreWhole(desired: Desired, now: Time)
    requires desired.Desired?
    ensures WholeSeconds(NewRun(desired, now))
  {
    MultipleIsWhole(now / SECOND);
    MultipleIsWhole((now + desired.duration) / SECOND);
    NewRunKeepsDuration(desired, now);
  }

  predicate RunStillWanted(spec: Spec, run: CurrentRun) {
    match run.trigger
    case Enabled => spec.enabled
    case Manual => spec.trigger.Some? && spec.trigger.value.runID == run.id
  }

  /** A run that is proposed is wanted from the start: by the spec's enabled flag, which wins, or by a
      trigger with an ID that was not the last to complete. */
  lemma DesiredRunIsWanted(spec: Spec, status: Status, newID: string, run: CurrentRun)
    requires var d := DesiredRun(spec, status, newID); d.Desired? && run.id == d.runID && run.trigger == d.trigger
    ensures RunStillWanted(spec, run) && (run.trigger == Enabled <==> spec.enabled)
    ensures run.id == newID || (run.id != "" && run.id != status.lastCompletedRunID)
  {
  }

  // ---------- what disable and reset leave of a spec ----------

  function DisableSpec(spec: Spec): Spec { spec.(enabled := false, trigger := None) }

  // ---------- history ----------

  function LastEntries(all: seq<RunHistoryEntry>): seq<RunHistoryEntry> {
    if |all| > HISTORY_CAP then all[|all| - HISTORY_CAP..] else all
  }

  function AppendHistory(history: seq<RunHistoryEntry>, entry: RunHistoryEntry): seq<RunHistoryEntry> {
    var h := history + [entry];
    if |h| > HISTORY_CAP then h[|h| - HISTORY_CAP..] else h
  }

  /** Appending to the capped history is capping the appended full history. */
  lemma AppendKeepsLast(all: seq<RunHistoryEntry>, entry: RunHistoryEntry)
    ensures AppendHistory(LastEntries(all), entry) == LastEntries(all + [entry])
  {
    if |all| > HISTORY_CAP {
      var l := LastEntries(all) + [entry];
      assert l[1..] == (all + [entry])[|all| + 1 - HISTORY_CAP..];
    }
  }

  // ---------- requeue and backoff ----------

  /** 0 means "no wake-up yet". */
  function LowerRequeue(cur: Duration, d: Duration): (r: Duration)
    requires cur >= 0
    ensures r >= 0 && (r == 0 <==> cur == 0 && d <= 0)
    ensures cur > 0 ==> r <= cur
    ensures d > 0 ==> r <= d
    ensures r == cur || r == d
  {
    if d <= 0 then cur
    else if cur == 0 || d < cur then d
    else cur
  }

  /** Exponential, from 1s; attempts are cut at five, so the 30s cap is never reached. */
  function BackoffFor(attempts: int): (d: Duration)
    ensures SECOND <= d <= 16 * SECOND
    ensures attempts >= 5 ==> d == 16 * SECOND
    ensures attempts <= 1 ==> d == SECOND
    ensures 1 <= attempts < 5 ==> BackoffFor(attempts + 1) == 2 * d
    decreases 5 - attempts
  {
    var clamped := if attempts < 1 then 1 else if attempts > 5 then 5 else attempts;
    var doubled := SECOND * [1, 2, 4, 8, 16][clamped - 1];
    if doubled < 30 * SECOND then doubled else 30 * SECOND
  }
}
