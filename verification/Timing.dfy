/** Operation metrics under a monotone clock: what the callbacks of a saved round observe. */
module Timing {
  import opened HostTypes
  import opened ActionResults
  import opened Actions
  import opened StateMachine
  import opened Effects
  import opened Machine
  import opened Registration
  import opened Pass
  import opened Invariants

  /** Started by now, and not ended before it was started. */
  predicate Consistent(m: Metric, now: Time) {
    m.start <= now && (m.Closed() ==> m.start <= m.end)
  }

  predicate TimesInv(h: History, now: Time) {
    && Consistent(h.register, now) && Consistent(h.inspect, now)
    && Consistent(h.provision, now) && Consistent(h.deprovision, now)
  }

  /** The metrics that callbacks are to observe are closed. */
  predicate ObservedClosed(h: Hsm) {
    forall x | MetricObserved(x) in h.trace :: HasMetric(x) && MetricFor(h.status.history, x).Closed()
  }

  /** A pass before the deferred update: the metrics are in order, and one that has been closed for a callback means
      that the host does not move. */
  predicate Timed(h: Hsm, r: Step, env: Inputs) {
    && TimesInv(r.h.status.history, env.clock.registerEnd) && ObservedClosed(r.h)
    && ((exists x :: MetricObserved(x) in r.h.trace) ==> r.h.next == h.next)
  }

  predicate Ticking(clock: Clock) {
    0 < clock.registerBegin <= clock.registerEnd <= clock.transition
  }

  predicate NothingObserved(t: seq<Event>) {
    forall x :: MetricObserved(x) !in t
  }

  lemma BeginTimes(s: Status, state: State, now: Time)
    requires TimesInv(s.history, now)
    ensures TimesInv(BeginMetric(s, state, now).history, now)
    ensures forall x | HasMetric(x) && x != state ::
              MetricFor(BeginMetric(s, state, now).history, x) == MetricFor(s.history, x)
  {
  }

  lemma SetOneMetric(h: History, state: State, metric: Metric, now: Time)
    requires HasMetric(state) && TimesInv(h, now) && Consistent(metric, now)
    ensures TimesInv(SetMetric(h, state, metric), now)
    ensures MetricFor(SetMetric(h, state, metric), state) == metric
    ensures forall x | HasMetric(x) && x != state :: MetricFor(SetMetric(h, state, metric), x) == MetricFor(h, x)
  {
  }

  lemma MetricConsistent(h: History, state: State, now: Time)
    requires HasMetric(state) && TimesInv(h, now)
    ensures Consistent(MetricFor(h, state), now)
  {
  }

  lemma EndTimes(h: Hsm, state: State, earlier: Time, now: Time)
    requires 0 < earlier <= now && TimesInv(h.status.history, earlier) && ObservedClosed(h)
    ensures var r := EndMetric(h, state, now);
            && TimesInv(r.status.history, now) && ObservedClosed(r)
            && r == h.(status := h.status.(history := r.status.history), trace := r.trace)
            && (forall x | MetricObserved(x) in r.trace :: MetricObserved(x) in h.trace || x == state)
  {
    hide TimesInv, SetMetric, MetricFor, HasMetric;
    TimesLater(h.status.history, earlier, now);
    if EndsMetric(h.status, state) {
      MetricConsistent(h.status.history, state, earlier);
      SetOneMetric(h.status.history, state, MetricFor(h.status.history, state).(end := now), now);
    }
  }

  lemma EnsureRegisteredTimes(h: Hsm, env: Inputs)
    requires Ticking(env.clock) && TimesInv(h.status.history, env.clock.registerBegin) && NothingObserved(h.trace)
    ensures var r := EnsureRegistered(h, env);
            && TimesInv(r.h.status.history, env.clock.registerEnd) && ObservedClosed(r.h)
            && (r.result == NoAction ==> NothingObserved(r.h.trace))
  {
    hide RegisterHost, Match, EndMetric, BeginMetric, TimesInv;
    var now := env.clock.registerBegin;
    var h1 := if h.next != Registering && RetriesRegistration(h.status, env.secret)
              then h.(status := BeginMetric(h.status, Registering, now)) else h;
    RegisterEffect(h1, env);
    BeginTimes(h.status, Registering, now);
    var r := RegisterHost(h1, env);
    TimesLater(r.h.status.history, now, env.clock.registerEnd);
    TimesLater(h.status.history, now, env.clock.registerEnd);
    EndTimes(r.h, Registering, now, env.clock.registerEnd);
  }

  lemma TimesLater(h: History, earlier: Time, now: Time)
    requires earlier <= now && TimesInv(h, earlier)
    ensures TimesInv(h, now)
  {
  }

  lemma AttachedTimed(h: Hsm, env: Inputs)
    requires Sane(h, env) && Ticking(env.clock) && TimesInv(h.status.history, env.clock.registerBegin)
    requires NothingObserved(h.trace) && h.status.health.errorType != DetachError
    requires env.meta.deleting ==> h.status.state in {Deprovisioning, PoweringOffBeforeDelete, Deleting}
    ensures Timed(h, AttemptAttached(h, env), env)
  {
    hide EnsureRegistered, Handle, TimesInv, Moves, Accounts, Concludes;
    EnsureRegisteredTimes(h, env);
    EnsureRegisteredEnrolls(h, env);
    var r := EnsureRegistered(h, env);
    if r.result == NoAction {
      HandlersNeedCommittedCredentials(h, env);
      HandlerHandled(r.h, env);
    }
  }

  lemma UndelayedTimed(h: Hsm, env: Inputs)
    requires Sane(h, env) && Ticking(env.clock) && TimesInv(h.status.history, env.clock.registerBegin)
    requires NothingObserved(h.trace)
    ensures Timed(h, AttemptUndelayed(h, env), env)
  {
    hide AttemptAttached, DetachHost;
    DetachEffect(h, env);
    DetachedAttempted(h, env);
    if InitiatedState(h.next, h.status, env.meta).None? && CheckDetachedHost(h, env).result == NoAction {
      if env.meta.deleting {
        DeletionIsolates(h, env);
      }
      AttachedTimed(h, env);
    }
  }

  lemma AttemptTimed(h: Hsm, env: Inputs)
    requires Sane(h, env) && Ticking(env.clock) && TimesInv(h.status.history, env.clock.registerBegin)
    requires NothingObserved(h.trace)
    ensures Timed(h, Attempt(h, env), env)
  {
    hide AttemptUndelayed;
    var d := CheckDelayedHost(h, env);
    if d.result == NoAction {
      UndelayedTimed(d.h, env);
    }
  }

  lemma DeferredTimed(h: Hsm, a: Step, env: Inputs)
    requires AtStart(h) && Timed(h, a, env) && Ticking(env.clock) && a.h.status.state == h.status.state
    ensures var m := Deferred(a, h.status.state, env);
            TimesInv(m.h.status.history, env.clock.transition) && ObservedClosed(m.h)
  {
    hide EndMetric, BeginMetric, TimesInv;
    var (earlier, now) := (env.clock.registerEnd, env.clock.transition);
    TimesLater(a.h.status.history, earlier, now);
    if a.h.next != h.status.state {
      var c := if NeedsCapacity(a.h.next) then EnsureCapacity(a.h, env.answers.capacityAfter) else Step(a.h, NoAction);
      EndTimes(c.h, h.status.state, earlier, now);
      BeginTimes(EndMetric(c.h, h.status.state, now).status, a.h.next, now);
    }
  }

  /** Whatever a callback observes after a round is a closed operation of non-negative duration. */
  lemma ObservedDurations(s: Status, finalizer: bool, env: Inputs, x: State)
    requires Sane(Start(s, finalizer), env) && Ticking(env.clock) && TimesInv(s.history, env.clock.registerBegin)
    requires MetricObserved(x) in ReconcileState(s, finalizer, env).h.trace
    ensures HasMetric(x)
    ensures var metric := MetricFor(ReconcileState(s, finalizer, env).h.status.history, x);
            metric.Closed() && metric.Duration() >= 0
  {
    hide Attempt, Deferred, HealthInv, Moves, Accounts, Concludes;
    AttemptTimed(Start(s, finalizer), env);
    assert Attempt(Start(s, finalizer), env).h.status.state == s.state by { AttemptStays(Start(s, finalizer), env); }
    DeferredTimed(Start(s, finalizer), Attempt(Start(s, finalizer), env), env);
  }

  /** A metric spans the time that the host spends in its state: it starts when the state is entered, and when the
      state is left it ends and keeps its start. */
  lemma MetricsSpanStates(s: Status, finalizer: bool, env: Inputs)
    requires Sane(Start(s, finalizer), env) && env.clock.transition != 0
    requires ReconcileState(s, finalizer, env).h.status.state != s.state
    ensures var (after, now) := (ReconcileState(s, finalizer, env).h.status, env.clock.transition);
            && (s.state in {Inspecting, Provisioning, Deprovisioning} && MetricFor(s.history, s.state).Open() ==>
                  MetricFor(after.history, s.state) == Metric(MetricFor(s.history, s.state).start, now))
            && (after.state in {Inspecting, Provisioning, Deprovisioning}
                && !MetricFor(s.history, after.state).Open() ==>
                  MetricFor(after.history, after.state) == Metric(now, 0))
  {
    hide Attempt, Deferred, HealthInv, Redeploys, Follows;
    AttemptAttempted(Start(s, finalizer), env);
    DeferredUpdate(Start(s, finalizer), Attempt(Start(s, finalizer), env), env);
  }

  lemma AttemptStays(h: Hsm, env: Inputs)
    requires Sane(h, env)
    ensures Attempt(h, env).h.status.state == h.status.state
  {
    hide Attempt, HealthInv, Redeploys, Follows, Accounts, Concludes;
    AttemptAttempted(h, env);
  }

  // ----- over whole runs -----

  /** The clock goes back neither within a round nor from one round to the next. */
  ghost predicate Monotone(rounds: seq<Round>) {
    && (forall i | 0 <= i < |rounds| :: Ticking(rounds[i].env.clock))
    && forall i, j | 0 <= i < j < |rounds| :: rounds[i].env.clock.transition <= rounds[j].env.clock.registerBegin
  }

  lemma RoundTimes(s: Status, r: Round)
    requires Invariant(s) && WellFormed(r, s) && Ticking(r.env.clock) && TimesInv(s.history, r.env.clock.registerBegin)
    ensures TimesInv(Reconcile(s, r).status.history, r.env.clock.transition)
  {
    hide Attempt, Deferred, HealthInv, Moves, Accounts, Concludes, TimesInv;
    TimesLater(s.history, r.env.clock.registerBegin, r.env.clock.transition);
    if RunsMachine(s, r) {
      var h := Start(s, r.finalizer);
      assert Sane(h, r.env);
      AttemptTimed(h, r.env);
      AttemptStays(h, r.env);
      DeferredTimed(h, Attempt(h, r.env), r.env);
    }
  }

  lemma {:induction false} RunTimes(states: seq<Status>, rounds: seq<Round>, i: nat, now: Time)
    requires Run(states, rounds) && states[0] == FRESH && i < |states| && Monotone(rounds)
    requires forall k | 0 <= k < i :: rounds[k].env.clock.transition <= now
    ensures TimesInv(states[i].history, now)
  {
    hide Reconcile, TimesInv, Invariant, WellFormed;
    if i == 0 {
      FreshTimes(now);
    } else {
      var r := rounds[i - 1];
      RunTimes(states, rounds, i - 1, r.env.clock.registerBegin);
      RunKeepsInvariant(states, rounds, i - 1);
      RoundTimes(states[i - 1], r);
      TimesLater(states[i].history, r.env.clock.transition, now);
    }
  }

  lemma FreshTimes(now: Time)
    ensures TimesInv(FRESH.history, now)
  {
  }

  /** Under a monotone clock, the operations whose durations the callbacks of any round of any run observe are closed,
      and their durations are not negative. */
  lemma DurationsAreMeasured(states: seq<Status>, rounds: seq<Round>, i: nat, x: State)
    requires Run(states, rounds) && states[0] == FRESH && i < |rounds| && Monotone(rounds)
    requires MetricObserved(x) in Reconcile(states[i], rounds[i]).trace
    ensures HasMetric(x)
    ensures var after := ReconcileState(states[i], rounds[i].finalizer, rounds[i].env).h.status.history;
            MetricFor(after, x).Closed() && MetricFor(after, x).Duration() >= 0
  {
    hide ReconcileState, TimesInv, HealthInv, MetricInv, RecordInv;
    RunTimes(states, rounds, i, rounds[i].env.clock.registerBegin);
    RunKeepsInvariant(states, rounds, i);
    ObservedDurations(states[i], rounds[i].finalizer, rounds[i].env, x);
  }
}
