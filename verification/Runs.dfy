/** Runs over time: they follow each other, last as long as was asked for, hang on what asked for them,
    and inject nothing before its delay. */
module Runs {
  import opened Prelude
  import opened Names
  import opened Api
  import opened Actions
  import opened Helpers
  import opened Protocol
  import opened Invariants
  import opened Theorems
  import opened Passes

  // ---------- one after the other ----------

  lemma TailIsChronicle(all: seq<RunHistoryEntry>, n: nat)
    requires Chronicle(all) && n <= |all|
    ensures Chronicle(all[n..])
  {
    var tail := all[n..];
    forall i | 0 < i < |tail|
      ensures tail[i - 1].endedAt < tail[i].startedAt + SECOND
    {
      assert tail[i] == all[n + i] && tail[i - 1] == all[n + i - 1];
    }
  }

  lemma HistoryIsChronicle(all: seq<RunHistoryEntry>, run: Option<CurrentRun>, now: Time)
    requires TimesOK(all, run, now)
    ensures TimesOK(LastEntries(all), run, now)
  {
    var history := LastEntries(all);
    TailIsChronicle(all, |all| - |history|);
    assert history == all[|all| - |history|..];
  }

  /** In the history no run ends before it began or in the future, each began when the one before it had
      ended, and so did the run in flight, give or take the second that truncation moves a start back. */
  lemma RunsNeverOverlap(env: Env, now: World, s: string)
    requires EnvOK(env) && env.freshReads && Reachable(env, now) && s in now.mjs
    ensures var all, run := now.mjs[s].status.history, now.mjs[s].status.currentRun;
            && (forall i | 0 <= i < |all| :: all[i].startedAt <= all[i].endedAt <= now.clock)
            && (forall i | 0 < i < |all| :: all[i - 1].endedAt < all[i].startedAt + SECOND)
            && (all != [] && run.Some? ==> all[|all| - 1].endedAt < run.value.startedAt + SECOND)
  {
    ReachableInv(env, now);
    HistoryTimes(env, now, s);
  }

  lemma HistoryTimes(env: Env, w: World, s: string)
    requires EnvOK(env) && env.freshReads && Inv(env, w) && s in w.mjs
    ensures TimesOK(w.mjs[s].status.history, w.mjs[s].status.currentRun, w.clock)
  {
    assert RunOK(w, s) && StatusOK(env, s, w.mjs[s]);
    HistoryIsChronicle(w.mjs[s].audit, w.mjs[s].status.currentRun, w.clock);
  }

  // ---------- an enabled run, once and as long as the spec says ----------

  predicate IsEnabledStart(l: Label, s: string) {
    l.PutStatus? && l.s == s && l.why.Start? && l.why.desired.Desired? && l.why.desired.trigger == Enabled
  }

  /** The enabled runs that were started for the scenario, as the labels that started them. */
  function EnabledStartsOf(ls: seq<Label>, s: string): seq<Label> {
    if ls == [] then []
    else EnabledStartsOf(ls[..|ls| - 1], s) + if IsEnabledStart(ls[|ls| - 1], s) then [ls[|ls| - 1]] else []
  }

  /** The label persists an enabled run of the spec's duration: to within a second, or without end. */
  predicate EnabledAsAsked(l: Label, spec: Spec) {
    && l.PutStatus? && l.why.Start? && l.status.currentRun.Some?
    && l.status.currentRun.value.trigger == Enabled && LastsAsAsked(l.status.currentRun.value, spec.duration, l.why.at)
  }

  /** No enabled run can start any more: the spec is off, or the one run it asks for is in flight. */
  predicate EnabledSpent(w: World, s: string) {
    s in w.mjs ==>
      !w.mjs[s].spec.enabled
      || (w.mjs[s].status.currentRun.Some? && w.mjs[s].status.currentRun.value.trigger == Enabled)
  }

  lemma EnabledSubject(env: Env, w: World, l: Label, s: string, spec: Spec)
    requires env.freshReads && s in env.quiet && Subject(l) == Some(s) && Allowed(env, w, l) && Requested(w, s, spec)
    ensures Requested(Next(w, l), s, spec)
    ensures IsEnabledStart(l, s) ==> EnabledAsAsked(l, spec) && EnabledSpent(Next(w, l), s)
    ensures EnabledSpent(w, s) ==> EnabledSpent(Next(w, l), s) && !IsEnabledStart(l, s)
  {
    SubjectShape(w, l);
    if l.PutStatus? {
      assert StrongStatus(env, w, s, l.why, w.mjs[s].status, l.status);
      if l.why.Start? {
        DesiredRunIsAsked(w.mjs[s].spec, w.mjs[s].status, l.why.desired.runID, l.why.at);
      }
    }
  }

  lemma EnabledStep(env: Env, w: World, l: Label, s: string, spec: Spec)
    requires env.freshReads && s in env.quiet && Allowed(env, w, l) && Requested(w, s, spec)
    ensures Requested(Next(w, l), s, spec)
    ensures IsEnabledStart(l, s) ==> EnabledAsAsked(l, spec) && EnabledSpent(Next(w, l), s)
    ensures EnabledSpent(w, s) ==> EnabledSpent(Next(w, l), s) && !IsEnabledStart(l, s)
  {
    if Subject(l) == Some(s) {
      EnabledSubject(env, w, l, s, spec);
    } else {
      OtherMJsKept(w, l);
    }
  }

  /** What `enable` asks for is done at most once: until a user writes again, and whatever crashes and
      retries happen, at most one enabled run starts, none if one is in flight or the spec is off, and it
      lasts as long as the spec says. */
  lemma {:induction false} EnabledRunRunsOnce(env: Env, w: World, ls: seq<Label>, s: string)
    requires env.freshReads && s in env.quiet && Legal(env, w, ls) && s in w.mjs
    ensures var starts, spec := EnabledStartsOf(ls, s), w.mjs[s].spec;
            && Requested(After(w, ls), s, spec) && |starts| <= 1
            && (starts != [] ==> EnabledAsAsked(starts[0], spec))
            && (starts != [] || EnabledSpent(w, s) ==> EnabledSpent(After(w, ls), s))
            && (EnabledSpent(w, s) ==> starts == [])
  {
    if ls != [] {
      var front := ls[..|ls| - 1];
      EnabledRunRunsOnce(env, w, front, s);
      EnabledStep(env, After(w, front), ls[|ls| - 1], s, w.mjs[s].spec);
    }
  }

  // ---------- a run hangs on what asked for it ----------

  /** Which way a pass goes, told by the copy and the time: it drives a run only before its expiry and
      while the spec is enabled or bears the run's ID, whichever it was started for. */
  lemma CourseTells(spec: Spec, status: Status, now: Time)
    ensures var run := status.currentRun;
            && (CourseOf(spec, status, now) == Starting <==> run.None? && status.activeActions == [])
            && (CourseOf(spec, status, now) == Driving <==>
                  && run.Some? && (run.value.expiresAt.None? || now < run.value.expiresAt.value)
                  && match run.value.trigger
                     case Enabled => spec.enabled
                     case Manual => spec.trigger.Some? && spec.trigger.value.runID == run.value.id)
  {
  }

  /** A manual run is driven until its expiry exactly if the trigger that stands is its own: as soon as
      another one is requested, or none, every pass drains it, until a user writes again. An enabled run
      is never driven again once the spec is off. */
  lemma RunHangsOnItsRequest(env: Env, w: World, ls: seq<Label>, s: string, now: Time)
    requires env.freshReads && s in env.quiet && Legal(env, w, ls) && s in w.mjs
    requires s in After(w, ls).mjs && After(w, ls).mjs[s].status.currentRun.Some?
    ensures var spec, mj := w.mjs[s].spec, After(w, ls).mjs[s];
            var run := mj.status.currentRun.value;
            && (run.trigger == Manual ==>
                  (CourseOf(mj.spec, mj.status, now) == Driving <==>
                     && spec.trigger.Some? && spec.trigger.value.runID == run.id
                     && (run.expiresAt.None? || now < run.expiresAt.value)))
            && (run.trigger == Enabled && !spec.enabled ==> CourseOf(mj.spec, mj.status, now) == Draining)
  {
    EnabledRunRunsOnce(env, w, ls, s);
  }

  // ---------- nothing before its delay ----------

  function Delay(a: Action): Duration {
    if a.delay.Some? then a.delay.value else 0
  }

  /** Every live token of an action of the spec was recorded when the action's delay was over. */
  predicate DelaysKept(w: World, s: string) {
    s in w.mjs && w.mjs[s].status.currentRun.Some? ==>
      var mj := w.mjs[s];
      forall i, j | 0 <= i < |mj.spec.actions| && 0 <= j < |mj.status.activeActions|
                    && mj.spec.actions[i].name == mj.status.activeActions[j].name ::
        mj.status.currentRun.value.startedAt + Delay(mj.spec.actions[i]) <= w.clock
  }

  /** Every name in the list after is one of the list before. */
  predicate NamesFrom(list: seq<ActiveAction>, list': seq<ActiveAction>) {
    forall j | 0 <= j < |list'| :: FindActiveAction(list, list'[j].name) >= 0
  }

  lemma WithoutNames(list: seq<ActiveAction>, name: string, list': seq<ActiveAction>)
    requires SameTokens(Without(list, name), list')
    ensures NamesFrom(list, list')
  {
    var k := FindActiveAction(list, name);
    forall j | 0 <= j < |list'|
      ensures FindActiveAction(list, list'[j].name) >= 0
    {
      var i := if k < 0 || j < k then j else j + 1;
      assert list[i].name == list'[j].name;
    }
  }

  lemma StatusKeepsDelays(env: Env, w: World, s: string, why: Why, st: Status)
    requires env.freshReads && s in w.mjs && Allowed(env, w, PutStatus(s, why, st)) && DelaysKept(w, s)
    requires w.mjs[s].status.activeActions != [] ==> w.mjs[s].status.currentRun.Some?
    ensures var mj := w.mjs[s];
            st.currentRun.Some? ==>
              forall i, j | 0 <= i < |mj.spec.actions| && 0 <= j < |st.activeActions|
                            && mj.spec.actions[i].name == st.activeActions[j].name ::
                st.currentRun.value.startedAt + Delay(mj.spec.actions[i]) <= w.clock
  {
    var list, list' := w.mjs[s].status.activeActions, st.activeActions;
    assert StrongStatus(env, w, s, why, w.mjs[s].status, st);
    match why {
      case Record(action, _) =>
        RecordedLog(list, list');
      case Drop(name) =>
        WithoutNames(list, name, list');
      case _ =>
    }
  }

  lemma DelaysStep(env: Env, w: World, l: Label, s: string)
    requires EnvOK(env) && env.freshReads && s in env.quiet && Inv(env, w) && Allowed(env, w, l) && DelaysKept(w, s)
    ensures DelaysKept(Next(w, l), s)
  {
    ClockIsMonotone(env, w, l);
    if Subject(l) == Some(s) {
      if s in w.mjs {
        assert StatusOK(env, s, w.mjs[s]);
      }
      DelaysSubject(env, w, l, s);
    } else {
      OtherMJsKept(w, l);
    }
  }

  lemma DelaysSubject(env: Env, w: World, l: Label, s: string)
    requires env.freshReads && s in env.quiet && Subject(l) == Some(s) && Allowed(env, w, l) && DelaysKept(w, s)
    requires s in w.mjs && w.mjs[s].status.activeActions != [] ==> w.mjs[s].status.currentRun.Some?
    ensures DelaysKept(Next(w, l), s)
  {
    SubjectShape(w, l);
    LeaksAndClock(w, l);
    if s in w.mjs {
      if l.PutStatus? {
        StatusKeepsDelays(env, w, s, l.why, l.status);
      } else {
        EditedShape(w.mjs[s], l);
      }
    }
  }

  /** Until a user writes, no action is recorded, so none is injected, before its delay is over, wherever
      a run of the system or a crash has led. */
  lemma {:induction false} DelaysAreKept(env: Env, w: World, ls: seq<Label>, s: string)
    requires EnvOK(env) && env.freshReads && s in env.quiet && Inv(env, w) && Legal(env, w, ls) && DelaysKept(w, s)
    ensures DelaysKept(After(w, ls), s)
  {
    if ls != [] {
      var front := ls[..|ls| - 1];
      DelaysAreKept(env, w, front, s);
      InvRun(env, w, front);
      DelaysStep(env, After(w, front), ls[|ls| - 1], s);
    }
  }
}
