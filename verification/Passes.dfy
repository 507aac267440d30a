/** What a pass of the controller computes on values: status mutations, what an action asks for, what
    is remembered of its calls, and which way a pass goes. */
module Passes {
  import opened Prelude
  import opened Names
  import opened Api
  import opened Actions
  import opened Helpers
  import opened Protocol
  import opened Invariants
  import opened Theorems
  import opened Drain

  /** Panicked: an index out of range, which ends the pass in Go. */
  datatype PassResult = Requeue | RequeueAfter(after: Duration) | Settled | Aborted(problem: Problem) | Panicked

  const PATCH_RETRIES := 5

  // ---------- status mutations ----------

  /** A status change of one active action, found by name. */
  function StatusMutation(st: Status, name: string, f: ActiveAction -> ActiveAction): Status {
    var i := FindActiveAction(st.activeActions, name);
    if i < 0 then st else st.(activeActions := st.activeActions[i := f(st.activeActions[i])])
  }

  predicate IsApplied(list: seq<ActiveAction>, name: string) {
    var i := FindActiveAction(list, name);
    i >= 0 && list[i].phase == Applied
  }

  predicate SameEntryIn(a: seq<ActiveAction>, b: seq<ActiveAction>, n: string) {
    var i, j := FindActiveAction(a, n), FindActiveAction(b, n);
    (i < 0 <==> j < 0) && (i >= 0 ==> b[j] == a[i])
  }

  /** Only the entry of one action differs, if any. */
  ghost predicate KeepsOthers(a: seq<ActiveAction>, b: seq<ActiveAction>, name: string) {
    forall n | n != name :: SameEntryIn(a, b, n)
  }

  lemma KeepsOthersTrans(a: seq<ActiveAction>, b: seq<ActiveAction>, c: seq<ActiveAction>, name: string)
    requires KeepsOthers(a, b, name) && KeepsOthers(b, c, name)
    ensures KeepsOthers(a, c, name)
  {
    forall n | n != name
      ensures SameEntryIn(a, c, n)
    {
      assert SameEntryIn(a, b, n) && SameEntryIn(b, c, n);
    }
  }

  lemma SameNamesFindSame(a: seq<ActiveAction>, b: seq<ActiveAction>, n: string)
    requires |a| == |b| && forall i | 0 <= i < |a| :: a[i].name == b[i].name
    ensures FindActiveAction(a, n) == FindActiveAction(b, n)
  {
    var i, j := FindActiveAction(a, n), FindActiveAction(b, n);
    if 0 <= i { assert b[i].name == n; }
    if 0 <= j { assert a[j].name == n; }
  }

  lemma MutationTouches(st: Status, name: string, f: ActiveAction -> ActiveAction)
    requires forall a: ActiveAction :: f(a).name == a.name && f(a).atype == a.atype && f(a).token == a.token
    ensures WeakStatus(Touch, st, StatusMutation(st, name, f)) && SameBooks(st, StatusMutation(st, name, f))
  {
  }

  /** A mutation by name changes that entry, in place, and no other. */
  lemma MutationIsLocal(st: Status, name: string, f: ActiveAction -> ActiveAction)
    requires forall a: ActiveAction :: f(a).name == a.name
    ensures KeepsOthers(st.activeActions, StatusMutation(st, name, f).activeActions, name)
    ensures var i := FindActiveAction(st.activeActions, name);
            && FindActiveAction(StatusMutation(st, name, f).activeActions, name) == i
            && (i >= 0 ==> StatusMutation(st, name, f).activeActions[i] == f(st.activeActions[i]))
  {
    var a, b := st.activeActions, StatusMutation(st, name, f).activeActions;
    forall n
      ensures FindActiveAction(a, n) == FindActiveAction(b, n)
    {
      SameNamesFindSame(a, b, n);
    }
  }

  /** The status without the action of that name. */
  function Dropped(st: Status, name: string): Status {
    st.(activeActions := Without(st.activeActions, name))
  }

  lemma DroppedIsWeak(st: Status, name: string)
    ensures WeakStatus(Drop(name), st, Dropped(st, name)) && SameBooks(st, Dropped(st, name))
  {
    DropIsWeak(st, name);
  }

  lemma DropsWeakly(mutate: Status -> Status, name: string)
    requires forall st :: mutate(st) == Dropped(st, name)
    ensures forall st :: WeakStatus(Drop(name), st, mutate(st))
  {
    forall st
      ensures WeakStatus(Drop(name), st, mutate(st))
    {
      DroppedIsWeak(st, name);
    }
  }

  /** Dropping the newest action leaves the others as they are. */
  lemma NewestDropped(st: Status)
    requires var list := st.activeActions;
             list != [] && FindActiveAction(list, list[|list| - 1].name) == |list| - 1
    ensures Dropped(st, st.activeActions[|st.activeActions| - 1].name)
            == st.(activeActions := st.activeActions[..|st.activeActions| - 1])
  {
    var list := st.activeActions;
    assert Without(list, list[|list| - 1].name) == list[..|list| - 1];
  }

  /** The same while reverting; the scenario may get degraded by it. */
  function RevertMutation(st: Status, name: string, f: ActiveAction -> ActiveAction, degraded: bool): Status {
    var st' := StatusMutation(st, name, f);
    if degraded then st'.(phase := Degraded, revertFailed := true) else st'
  }

  lemma RevertMutationTouches(st: Status, name: string, f: ActiveAction -> ActiveAction, degraded: bool)
    requires forall a: ActiveAction :: f(a).name == a.name && f(a).atype == a.atype && f(a).token == a.token
    ensures WeakStatus(Touch, st, RevertMutation(st, name, f, degraded))
    ensures SameBooks(st, RevertMutation(st, name, f, degraded))
  {
    MutationTouches(st, name, f);
  }

  /** The status with another entry for the newest action. */
  function NewestReplaced(st: Status, aa: ActiveAction, degraded: bool): Status
    requires st.activeActions != []
  {
    st.(activeActions := st.activeActions[..|st.activeActions| - 1] + [aa],
        phase := if degraded then Degraded else st.phase,
        revertFailed := degraded || st.revertFailed)
  }

  lemma LastMutated(st: Status, aa: ActiveAction, f: ActiveAction -> ActiveAction, degraded: bool)
    requires var list := st.activeActions;
             list != [] && list[|list| - 1] == aa && FindActiveAction(list, aa.name) == |list| - 1
    ensures RevertMutation(st, aa.name, f, degraded) == NewestReplaced(st, f(aa), degraded)
  {
    var list := st.activeActions;
    assert list[|list| - 1 := f(aa)] == list[..|list| - 1] + [f(aa)];
  }

  /** The guarded append: a token already persisted under the name is left alone. */
  function AppendOnce(st: Status, aa: ActiveAction): Status {
    st.(activeActions :=
          if FindActiveAction(st.activeActions, aa.name) < 0 then st.activeActions + [aa] else st.activeActions,
        phase := Activating)
  }

  lemma AppendOnceRecords(st: Status, aa: ActiveAction, action: Action, rc: RunContext)
    requires aa.name == action.name
    ensures WeakStatus(Record(action, rc), st, AppendOnce(st, aa)) && SameBooks(st, AppendOnce(st, aa))
    ensures KeepsOthers(st.activeActions, AppendOnce(st, aa).activeActions, aa.name)
    ensures FindActiveAction(AppendOnce(st, aa).activeActions, aa.name) >= 0 && AppendOnce(st, aa).phase == Activating
    ensures FindActiveAction(st.activeActions, aa.name) < 0 ==>
              AppendOnce(st, aa).activeActions == st.activeActions + [aa]
  {
    var a, b := st.activeActions, AppendOnce(st, aa).activeActions;
    forall n | n != aa.name
      ensures SameEntryIn(a, b, n)
    {
      var i := FindActiveAction(a, n);
      if i >= 0 {
        assert b[i] == a[i];
        assert forall k | 0 <= k < i :: b[k] == a[k];
      }
    }
    if FindActiveAction(a, aa.name) < 0 {
      assert b[|a|] == aa;
    }
  }

  // ---------- what an action asks for ----------

  function ActivateAt(act: Action, run: CurrentRun): Time {
    run.startedAt + if act.delay.Some? then act.delay.value else 0
  }

  /** How a pass left an action. `at` is the point of the trace where Plan or Ensure looked at the
      cluster, `settled` what it saw of a rollout. */
  datatype Ask = NotDue | PlanFailed(at: nat) | Ensured(o: Outcome, at: nat, settled: bool)

  /** When the action wants to be looked at again, 0 for no wish: at the end of its delay, in ten
      seconds when there is no plan, when Ensure proposes it, or after the backoff that goes with the
      attempts persisted for it. */
  function WakeOf(ask: Ask, list: seq<ActiveAction>, act: Action, run: CurrentRun, now: Time): Duration {
    match ask
    case NotDue => run.startedAt + (if act.delay.Some? then act.delay.value else 0) - now
    case PlanFailed(_) => 10 * SECOND
    case Ensured(Done, _, _) => 0
    case Ensured(Wait(after), _, _) => after
    case Ensured(Error(_), _, _) =>
      var i := FindActiveAction(list, act.name);
      if i < 0 then 0 else BackoffFor(list[i].attempts)
  }

  /** The ask agrees with what is persisted. */
  predicate Answered(ask: Ask, list: seq<ActiveAction>, act: Action, run: CurrentRun, now: Time) {
    var i := FindActiveAction(list, act.name);
    match ask
    case NotDue => i < 0 && now < run.startedAt + (if act.delay.Some? then act.delay.value else 0)
    case PlanFailed(_) => i < 0
    case Ensured(o, _, _) =>
      && i >= 0
      && (o == Done ==> list[i].phase == Applied && list[i].lastError.None?)
      && (o.Error? ==> list[i].lastError == Some(o.problem))
      && (o.Wait? ==> SECOND <= o.after <= 10 * SECOND)
  }

  /** The ask agrees with what Plan or Ensure really answered, at a point of the pass. */
  ghost predicate Truthful(s: string, start: World, trace: seq<Label>, from: nat,
                           ask: Ask, list: seq<ActiveAction>, act: Action, rc: RunContext) {
    match ask
    case NotDue => true
    case PlanFailed(at) => from <= at <= |trace| && Plan(At(start, trace, at), rc, act).Err?
    case Ensured(o, at, settled) =>
      var i := FindActiveAction(list, act.name);
      && from <= at < |trace| && i >= 0
      && trace[at] == CallEnsure(s, act, list[i].token, rc, settled)
      && o == EnsureEffect(At(start, trace, at), rc, act, list[i].token, settled).outcome
  }

  lemma TruthfulLater(s: string, start: World, trace: seq<Label>, trace': seq<Label>, from: nat,
                      ask: Ask, list: seq<ActiveAction>, list': seq<ActiveAction>, act: Action, rc: RunContext)
    requires Truthful(s, start, trace, from, ask, list, act, rc) && trace <= trace'
    requires SameEntryIn(list, list', act.name)
    ensures Truthful(s, start, trace', from, ask, list', act, rc)
  {
    match ask {
      case NotDue =>
      case PlanFailed(at) => assert trace[..at] == trace'[..at];
      case Ensured(_, at, _) => assert trace[..at] == trace'[..at];
    }
  }

  /** The action is in place: Ensure said so, or failed on one that had been applied before. */
  predicate InPlace(ask: Ask, list: seq<ActiveAction>, act: Action) {
    ask.Ensured? && (ask.o == Done || (ask.o.Error? && IsApplied(list, act.name)))
  }

  /** The first actions of the spec have been driven; allApplied tells whether they are all in place. */
  ghost predicate Driven(list: seq<ActiveAction>, actions: seq<Action>, asks: seq<Ask>, allApplied: bool,
                         run: CurrentRun, now: Time) {
    && |asks| <= |actions|
    && (forall j | 0 <= j < |asks| :: Answered(asks[j], list, actions[j], run, now))
    && (allApplied <==> forall j | 0 <= j < |asks| :: InPlace(asks[j], list, actions[j]))
  }

  ghost predicate AllTruthful(s: string, start: World, trace: seq<Label>, from: nat,
                              asks: seq<Ask>, list: seq<ActiveAction>, actions: seq<Action>, rc: RunContext) {
    |asks| <= |actions| && forall j | 0 <= j < |asks| :: Truthful(s, start, trace, from, asks[j], list, actions[j], rc)
  }

  /** No wish of the first actions is missed. */
  ghost predicate WakesInTime(after: Duration, list: seq<ActiveAction>, actions: seq<Action>, asks: seq<Ask>,
                              run: CurrentRun, now: Time) {
    && |asks| <= |actions|
    && forall j | 0 <= j < |asks| ::
         var wake := WakeOf(asks[j], list, actions[j], run, now); wake > 0 ==> 0 < after <= wake
  }

  /** It is the wish of one of the first actions, or none of them has one. */
  ghost predicate WishOfOne(after: Duration, list: seq<ActiveAction>, actions: seq<Action>, asks: seq<Ask>,
                            run: CurrentRun, now: Time) {
    && |asks| <= |actions|
    && (after == 0 || exists j | 0 <= j < |asks| :: after == WakeOf(asks[j], list, actions[j], run, now))
  }

  lemma WishOne(after: Duration, after': Duration, list: seq<ActiveAction>, list': seq<ActiveAction>,
                actions: seq<Action>, asks: seq<Ask>, ask: Ask, run: CurrentRun, now: Time)
    requires WishOfOne(after, list, actions, asks, run, now) && |asks| < |actions| && ValidActions(actions)
    requires KeepsOthers(list, list', actions[|asks|].name)
    requires after' == after || after' == WakeOf(ask, list', actions[|asks|], run, now)
    ensures WishOfOne(after', list', actions, asks + [ask], run, now)
  {
    var asks' := asks + [ask];
    if after' == after && after != 0 {
      var j :| 0 <= j < |asks| && after == WakeOf(asks[j], list, actions[j], run, now);
      assert actions[j].name != actions[|asks|].name;
      assert SameEntryIn(list, list', actions[j].name);
      assert asks'[j] == asks[j];
    } else if after' != after {
      assert asks'[|asks|] == ask;
    }
  }

  lemma DriveOne(list: seq<ActiveAction>, list': seq<ActiveAction>, actions: seq<Action>, asks: seq<Ask>,
                 allApplied: bool, applied: bool, ask: Ask, run: CurrentRun, now: Time)
    requires Driven(list, actions, asks, allApplied, run, now) && |asks| < |actions| && ValidActions(actions)
    requires KeepsOthers(list, list', actions[|asks|].name)
    requires Answered(ask, list', actions[|asks|], run, now)
    requires applied <==> InPlace(ask, list', actions[|asks|])
    ensures Driven(list', actions, asks + [ask], allApplied && applied, run, now)
  {
    forall j | 0 <= j < |asks|
      ensures Answered(asks[j], list', actions[j], run, now)
      ensures InPlace(asks[j], list', actions[j]) <==> InPlace(asks[j], list, actions[j])
    {
      assert actions[j].name != actions[|asks|].name;
      assert SameEntryIn(list, list', actions[j].name);
      assert Answered(asks[j], list, actions[j], run, now);
    }
    var asks' := asks + [ask];
    assert asks'[|asks|] == ask && forall j | 0 <= j < |asks| :: asks'[j] == asks[j];
  }

  lemma WakeOne(after: Duration, after': Duration, list: seq<ActiveAction>, list': seq<ActiveAction>,
                actions: seq<Action>, asks: seq<Ask>, ask: Ask, run: CurrentRun, now: Time)
    requires WakesInTime(after, list, actions, asks, run, now) && |asks| < |actions| && ValidActions(actions)
    requires KeepsOthers(list, list', actions[|asks|].name)
    requires after' > 0 || after == 0
    requires after > 0 ==> after' <= after
    requires var wake := WakeOf(ask, list', actions[|asks|], run, now); wake > 0 ==> 0 < after' <= wake
    ensures WakesInTime(after', list', actions, asks + [ask], run, now)
  {
    forall j | 0 <= j < |asks|
      ensures var wake := WakeOf(asks[j], list', actions[j], run, now); wake > 0 ==> 0 < after' <= wake
    {
      assert actions[j].name != actions[|asks|].name;
      assert SameEntryIn(list, list', actions[j].name);
    }
  }

  lemma TruthfulOne(s: string, start: World, trace: seq<Label>, trace': seq<Label>, from: nat,
                    asks: seq<Ask>, ask: Ask, list: seq<ActiveAction>, list': seq<ActiveAction>,
                    actions: seq<Action>, rc: RunContext)
    requires AllTruthful(s, start, trace, from, asks, list, actions, rc) && trace <= trace'
    requires |asks| < |actions| && ValidActions(actions) && KeepsOthers(list, list', actions[|asks|].name)
    requires Truthful(s, start, trace', from, ask, list', actions[|asks|], rc)
    ensures AllTruthful(s, start, trace', from, asks + [ask], list', actions, rc)
  {
    forall j | 0 <= j < |asks|
      ensures Truthful(s, start, trace', from, asks[j], list', actions[j], rc)
    {
      assert actions[j].name != actions[|asks|].name;
      assert SameEntryIn(list, list', actions[j].name);
      TruthfulLater(s, start, trace, trace', from, asks[j], list, list', actions[j], rc);
    }
  }

  lemma AllTruthfulLater(s: string, start: World, trace: seq<Label>, trace': seq<Label>, from: nat,
                         asks: seq<Ask>, list: seq<ActiveAction>, actions: seq<Action>, rc: RunContext)
    requires AllTruthful(s, start, trace, from, asks, list, actions, rc) && trace <= trace'
    ensures AllTruthful(s, start, trace', from, asks, list, actions, rc)
  {
    forall j | 0 <= j < |asks|
      ensures Truthful(s, start, trace', from, asks[j], list, actions[j], rc)
    {
      TruthfulLater(s, start, trace, trace', from, asks[j], list, list, actions[j], rc);
    }
  }

  lemma AllTruthfulFrom(s: string, start: World, trace: seq<Label>, from: nat, from': nat,
                        asks: seq<Ask>, list: seq<ActiveAction>, actions: seq<Action>, rc: RunContext)
    requires AllTruthful(s, start, trace, from', asks, list, actions, rc) && from <= from'
    ensures AllTruthful(s, start, trace, from, asks, list, actions, rc)
  {
    forall j | 0 <= j < |asks|
      ensures Truthful(s, start, trace, from, asks[j], list, actions[j], rc)
    {
      assert Truthful(s, start, trace, from', asks[j], list, actions[j], rc);
    }
  }

  // ---------- the end of a pass that drives ----------

  /** A pass looks again at expiry, but not within the second. */
  function UntilExpiry(run: CurrentRun, now: Time): (d: Duration)
    requires run.expiresAt.Some?
    ensures d >= SECOND && (d == SECOND || now + d == run.expiresAt.value)
    ensures now + d >= run.expiresAt.value
  {
    if run.expiresAt.value - now < SECOND then SECOND else run.expiresAt.value - now
  }

  predicate AtExpiry(run: CurrentRun, after: Duration, now: Time) {
    run.expiresAt.Some? && after == UntilExpiry(run, now)
  }

  /** Only the phase changes, and the condition with it once all is applied. */
  predicate PhaseNoted(st: Status, st': Status, allApplied: bool) {
    && st' == st.(phase := if allApplied then Active else Activating, ready := st'.ready)
    && (if allApplied then st'.ready.Ready? else st'.ready == st.ready)
  }

  predicate AnyUnplanned(asks: seq<Ask>) {
    exists i | 0 <= i < |asks| :: asks[i].PlanFailed?
  }

  /** The condition says so when a plan has failed. */
  predicate ReadyTells(ready: Readiness, asks: seq<Ask>) {
    AnyUnplanned(asks) ==> ready == NotReady("PlanFailed")
  }

  lemma ReadyOne(ready: Readiness, ready': Readiness, asks: seq<Ask>, ask: Ask)
    requires ReadyTells(ready, asks) && ready' == if ask.PlanFailed? then NotReady("PlanFailed") else ready
    ensures ReadyTells(ready', asks + [ask])
  {
    var asks' := asks + [ask];
    if AnyUnplanned(asks') && !ask.PlanFailed? {
      var i :| 0 <= i < |asks'| && asks'[i].PlanFailed?;
      assert asks[i].PlanFailed?;
    }
  }

  /** Active exactly if every action is in place, and then every action is applied. */
  ghost predicate PhaseTells(st: Status, actions: seq<Action>, asks: seq<Ask>) {
    && |asks| == |actions| && st.phase in {Active, Activating} && ReadyTells(st.ready, asks)
    && (st.phase == Active <==> forall i | 0 <= i < |asks| :: InPlace(asks[i], st.activeActions, actions[i]))
    && (st.phase == Active ==>
          st.ready.Ready? && forall i | 0 <= i < |actions| :: IsApplied(st.activeActions, actions[i].name))
  }

  // ---------- what is remembered of a call ----------

  /** What a pass remembers of an Ensure call: an error counts an attempt, an applied action stays
      applied and keeps its first time, and waiting leaves no mark. */
  predicate EnsureNoted(before: ActiveAction, after: ActiveAction, o: Outcome, now: Time) {
    match o
    case Error(p) => after == before.(attempts := before.attempts + 1, lastError := Some(p))
    case Wait(_) => after == before
    case Done =>
      && after.phase == Applied && after.lastError.None? && after.token == before.token
      && after.appliedAt == (if before.phase == Applied then before.appliedAt else Some(now))
      && after.attempts == (if before.phase == Applied && before.lastError.None? then before.attempts else 0)
  }

  /** What a pass remembers of a Revert call that is not done: an error counts an attempt and backs off,
      and the fifth one degrades the scenario; waiting clears the error and goes on when it proposes. */
  predicate RevertNoted(st: Status, st': Status, o: Outcome, after: Duration)
    requires st.activeActions != []
  {
    var n := |st.activeActions| - 1;
    var was := st.activeActions[n];
    match o
    case Error(p) =>
      var now := was.(phase := Undoing, attempts := was.attempts + 1, lastError := Some(p));
      st' == NewestReplaced(st, now, was.attempts + 1 >= 5) && after == BackoffFor(was.attempts + 1)
    case Wait(proposed) =>
      st' == NewestReplaced(st, was.(phase := Undoing, lastError := None), false) && after == proposed
    case Done => false
  }

  /** What one Revert of the newest action leaves: its token is dropped exactly if it is done. */
  predicate RevertedOnce(st: Status, st': Status, r: PassResult, o: Outcome)
    requires st.activeActions != []
  {
    && (r == Requeue <==> o == Done)
    && (r == Requeue ==> st' == st.(activeActions := st.activeActions[..|st.activeActions| - 1]))
    && (r.RequeueAfter? ==> SECOND <= r.after <= 16 * SECOND && RevertNoted(st, st', o, r.after))
  }

  /** What the newest action answered to Revert, and where in the trace it was called. */
  datatype Answer = Answer(o: Outcome, at: nat)

  /** It is what Revert really answers there. */
  ghost predicate TrueAnswer(s: string, start: World, trace: seq<Label>, from: nat, answer: Answer, token: Token,
                             rc: RunContext) {
    && from <= answer.at < |trace| && trace[answer.at] == CallRevert(s, token, rc)
    && answer.o == RevertEffect(At(start, trace, answer.at), rc, token).outcome
  }

  lemma TrueAnswerLater(s: string, start: World, trace: seq<Label>, trace': seq<Label>, from: nat, from': nat,
                        answer: Answer, token: Token, rc: RunContext)
    requires TrueAnswer(s, start, trace, from, answer, token, rc) && trace <= trace' && from' <= from
    ensures TrueAnswer(s, start, trace', from', answer, token, rc)
  {
    assert trace[..answer.at] == trace'[..answer.at];
  }

  /** What an Ensure call proposes for the next look: something, unless it reports done. */
  function WakeAfter(o: Outcome, attempts: int): Duration {
    match o
    case Done => 0
    case Wait(after) => if after <= 0 then 5 * SECOND else after
    case Error(_) => BackoffFor(attempts + 1)
  }

  /** The entry after an Ensure call answers for the wake-up proposed. */
  lemma NotedAnswers(list: seq<ActiveAction>, list': seq<ActiveAction>, ask: Ask, act: Action, run: CurrentRun,
                     now: Time)
    requires ask.Ensured? && (ask.o.Wait? ==> SECOND <= ask.o.after <= 10 * SECOND)
    requires var i, j := FindActiveAction(list, act.name), FindActiveAction(list', act.name);
             i >= 0 && j >= 0 && EnsureNoted(list[i], list'[j], ask.o, now)
    ensures var i := FindActiveAction(list, act.name);
            && Answered(ask, list', act, run, now)
            && WakeAfter(ask.o, list[i].attempts) == WakeOf(ask, list', act, run, now)
            && (ask.o == Done || (ask.o.Error? && list[i].phase == Applied) <==> InPlace(ask, list', act))
  {
  }

  // ---------- status writes among the writes of a pass ----------

  /** A status write is among the labels from the n-th on. */
  predicate PutFrom(ls: seq<Label>, n: nat) {
    exists j | n <= j < |ls| :: ls[j].PutStatus?
  }

  lemma PutsAdd(ls: seq<Label>, ls': seq<Label>, n: nat)
    requires ls <= ls' && n <= |ls|
    ensures PutFrom(ls', n) <==> PutFrom(ls, n) || PutFrom(ls', |ls|)
  {
    if PutFrom(ls, n) {
      var j :| n <= j < |ls| && ls[j].PutStatus?;
      assert ls'[j].PutStatus?;
    }
    if PutFrom(ls', n) {
      var j :| n <= j < |ls'| && ls'[j].PutStatus?;
      assert j < |ls| ==> ls[j].PutStatus?;
    }
  }

  // ---------- which way a pass goes ----------

  /** The status once its drain has begun. */
  function DrainBegun(st: Status): Status {
    if st.phase == Degraded then st else st.(phase := Reverting)
  }

  /** A drain pass reverts the newest action once, after it has marked the scenario as reverting; with
      none left it closes the run, no earlier than it looked. */
  predicate DrainedOne(st: Status, st': Status, r: PassResult, answer: Option<Answer>, looked: Time, latest: Time) {
    if st.activeActions == [] then
      st.currentRun.Some? && r == Requeue && Closed(st, st', st.currentRun.value, looked, latest)
    else answer.Some? && RevertedOnce(DrainBegun(st), st', r, answer.value.o)
  }

  /** A copy that shows tokens, and no drain begun, of a status that has none left. */
  predicate StaleTokens(copy: Status, current: Status) {
    copy.activeActions != [] && copy.phase != Reverting && copy.phase != Degraded && current.activeActions == []
  }

  /** What a pass with a valid spec sets out to do. */
  datatype Course = Starting | Draining | Driving

  function CourseOf(spec: Spec, status: Status, now: Time): Course {
    if status.currentRun.None? then if status.activeActions == [] then Starting else Draining
    else if Expired(status.currentRun.value, now) || !RunStillWanted(spec, status.currentRun.value) then Draining
    else Driving
  }

  /** What is known of a pass: its course and the time that decided it, the UUID it drew to start a run,
      for a run it drove the time it used and how each action was left, and for one it drained what the
      newest action answered. */
  datatype Report = Report(course: Course, looked: Time, newID: string, asks: seq<Ask>, began: Time,
                           answer: Option<Answer>)

  const Blank := Report(Starting, 0, "", [], 0, None)

  // ---------- a copy that is too short ----------

  /** Step i of a loop over n actions has no action to look at: it had one to begin with, but a status
      write has since refreshed the copy from a resource that has only m. ws: the writes of the scenario,
      those of the pass from `from` on; marks: how many there were when each step began. */
  predicate FellShort(m: nat, n: nat, ws: seq<Label>, from: nat, marks: seq<nat>, i: nat) {
    m <= i < n && i < |marks| && marks[i] <= |ws| && PutFrom(ws[..marks[i]], from)
  }

  predicate LongEnough(m: nat, n: nat, ws: seq<Label>, from: nat, marks: seq<nat>) {
    forall i | 0 <= i < |marks| :: marks[i] <= |ws| && !FellShort(m, n, ws, from, marks, i)
  }

  /** A step begins: whether it finds an action is told by the writes so far. */
  lemma MarkNow(m: nat, n: nat, ws: seq<Label>, from: nat, marks: seq<nat>, length: nat)
    requires LongEnough(m, n, ws, from, marks) && |marks| < n
    requires length == if PutFrom(ws, from) then m else n
    ensures FellShort(m, n, ws, from, marks + [|ws|], |marks|) <==> |marks| >= length
    ensures |marks| < length ==> LongEnough(m, n, ws, from, marks + [|ws|])
  {
    var marks' := marks + [|ws|];
    assert ws[..|ws|] == ws;
    forall i | 0 <= i < |marks|
      ensures marks'[i] <= |ws| && !FellShort(m, n, ws, from, marks', i)
    {
      assert !FellShort(m, n, ws, from, marks, i) && marks'[i] == marks[i];
    }
  }

  /** More writes do not change what the marks tell. */
  lemma MarksStay(m: nat, n: nat, ws: seq<Label>, ws': seq<Label>, from: nat, marks: seq<nat>)
    requires LongEnough(m, n, ws, from, marks) && ws <= ws'
    ensures LongEnough(m, n, ws', from, marks)
  {
    forall i | 0 <= i < |marks|
      ensures marks[i] <= |ws'| && !FellShort(m, n, ws', from, marks, i)
    {
      assert !FellShort(m, n, ws, from, marks, i) && ws[..marks[i]] == ws'[..marks[i]];
    }
  }

  /** Nothing was leaked, and while draining nothing recorded, injected or started. */
  ghost predicate Grew(before: seq<Label>, now: seq<Label>, draining: bool) {
    before <= now && forall i | |before| <= i < |now| :: !now[i].Leak? && (draining ==> Drains(now[i]))
  }

  /** Tokens were leaked and the finalizer removed, and nothing else. */
  ghost predicate OnlyReleases(before: seq<Label>, now: seq<Label>) {
    before <= now && forall i | |before| <= i < |now| :: now[i].Leak? || now[i].DropFinalizer?
  }

  // ---------- the books of a finished run ----------

  function FinishedStatus(st: Status, entry: RunHistoryEntry): Status {
    st.(history := AppendHistory(st.history, entry), lastCompletedRunID := entry.id, currentRun := None,
        phase := Idle, revertFailed := false, ready := Readiness.Ready("Idle"))
  }

  /** Idle, with nothing failing; the run's ID the last completed one, its entry the newest, ended
      between the two times and completed exactly when it had expired by then. */
  predicate Closed(st: Status, st': Status, run: CurrentRun, earliest: Time, latest: Time) {
    && st'.currentRun.None? && st'.lastCompletedRunID == run.id && st'.activeActions == st.activeActions
    && st'.phase == Idle && st'.ready.Ready? && !st'.revertFailed
    && |st'.history| > 0
    && var entry := st'.history[|st'.history| - 1];
       && st'.history == AppendHistory(st.history, entry)
       && entry.id == run.id && entry.trigger == run.trigger && entry.startedAt == run.startedAt
       && earliest <= entry.endedAt <= latest && entry.result in {Completed, RunResult.Reverted}
       && (entry.result == Completed <==> run.expiresAt.Some? && run.expiresAt.value <= entry.endedAt)
  }

  lemma FinishedIsClosed(st: Status, run: CurrentRun, entry: RunHistoryEntry, earliest: Time, latest: Time)
    requires EntryOf(run, entry, latest) && earliest <= entry.endedAt
    ensures Closed(st, FinishedStatus(st, entry), run, earliest, latest)
  {
    var h := AppendHistory(st.history, entry);
    assert h[|h| - 1] == entry;
  }

  /** A run that had expired when the pass looked is closed as completed, one that has not by the end of
      the pass as reverted. */
  lemma ClosedTells(st: Status, st': Status, run: CurrentRun, looked: Time, latest: Time)
    requires Closed(st, st', run, looked, latest)
    ensures Expired(run, looked) ==> st'.history[|st'.history| - 1].result == Completed
    ensures !Expired(run, latest) ==> st'.history[|st'.history| - 1].result == RunResult.Reverted
  {
  }

  lemma DrivenRunsLast(spec: Spec, status: Status, now: Time)
    requires CourseOf(spec, status, now) == Driving && status.currentRun.value.startedAt <= now
    ensures Lasting(status.currentRun.value)
  {
  }
}
