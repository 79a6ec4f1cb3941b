/** What an observer of one pass sees: which handlers run, what is asked of the provisioner, and when capacity was
    checked. */
module Traces {
  import opened HostTypes
  import opened ActionResults
  import opened Actions
  import opened StateMachine
  import opened Effects
  import opened Machine
  import opened Registration
  import opened Pass

  /** The events that start expensive work on a node: the calls themselves, and entering the states that make them. */
  predicate Expensive(e: Event) {
    e in {InspectCalled, ProvisionCalled, DeprovisionCalled} || (e.StateEntered? && NeedsCapacity(e.state))
  }

  /** Every expensive event comes after a successful capacity check. */
  predicate Gated(t: seq<Event>) {
    forall i | 0 <= i < |t| && Expensive(t[i]) :: CapacityChecked(true) in t[..i]
  }

  lemma GatedAppend(t: seq<Event>, e: Event)
    requires Gated(t) && (Expensive(e) ==> CapacityChecked(true) in t)
    ensures Gated(t + [e])
  {
    forall i | 0 <= i < |t + [e]| && Expensive((t + [e])[i]) ensures CapacityChecked(true) in (t + [e])[..i] {
      assert i < |t| ==> (t + [e])[..i] == t[..i];
      assert (t + [e])[..|t|] == t;
    }
  }

  /** Nothing but the handler of `state` runs, and no state is entered yet. */
  predicate RunsOnly(t: seq<Event>, state: State) {
    forall e | e in t :: (e.HandlerRun? ==> e.state == state) && !e.StateEntered? && e != CapacityChecked(false)
  }

  /** The trace of a pass that has reached the guards after the capacity check. */
  predicate Passable(h: Hsm) {
    && Gated(h.trace) && RunsOnly(h.trace, h.status.state)
    && (forall e | e in h.trace :: !e.HandlerRun?)
    && (NeedsCapacity(h.status.state) ==> CapacityChecked(true) in h.trace)
  }

  lemma EnsureRegisteredTrace(h: Hsm, env: Inputs)
    ensures var t := EnsureRegistered(h, env).h.trace;
            t in {h.trace, h.trace + [RegisterCalled], h.trace + [MetricObserved(Registering)],
                  h.trace + [RegisterCalled] + [MetricObserved(Registering)]}
  {
    hide RegisterHost, Match;
    RegisterEffect(h, env);
    RegisterEffect(h.(status := BeginMetric(h.status, Registering, env.clock.registerBegin)), env);
  }

  lemma Extended(h: Hsm, t: seq<Event>)
    requires Passable(h)
    requires t in {h.trace, h.trace + [RegisterCalled], h.trace + [MetricObserved(Registering)],
                   h.trace + [RegisterCalled] + [MetricObserved(Registering)]}
    ensures Passable(h.(trace := t))
  {
    GatedAppend(h.trace, RegisterCalled);
    GatedAppend(h.trace, MetricObserved(Registering));
    GatedAppend(h.trace + [RegisterCalled], MetricObserved(Registering));
  }

  /** What the trace of a pass says before the deferred update. */
  predicate Traced(h: Hsm, r: Step, env: Inputs) {
    && Gated(r.h.trace) && RunsOnly(r.h.trace, h.status.state)
    && ((exists e <- r.h.trace :: e.HandlerRun?) ==>
          && (env.meta.deleting ==> h.status.state in {Deprovisioning, PoweringOffBeforeDelete, Deleting})
          && (RegistersIn(h, env) && h.status.state != Registering ==> !RetriesRegistration(h.status, env.secret)))
  }

  lemma HandlerTraced(h: Hsm, env: Inputs)
    requires Passable(h) && Runnable(h, env)
    requires h.status.state in {NoState, Unmanaged} ==> h.status.health.errorType == NoError
    ensures Gated(Handle(h, env).h.trace) && RunsOnly(Handle(h, env).h.trace, h.status.state)
  {
    hide Handle, Moves, Accounts, Concludes, Runnable, Gated;
    HandlerHandled(h, env);
    var t := h.trace + [HandlerRun(h.status.state)];
    var after := Handle(h, env).h.trace;
    var e := if Adds(t, after, PowerOffCalled) then PowerOffCalled else CallOf(h.status.state);
    GatedAppend(h.trace, HandlerRun(h.status.state));
    AddsGated(t, after, e);
  }

  lemma AddsGated(t: seq<Event>, after: seq<Event>, e: Event)
    requires Gated(t) && (Expensive(e) ==> CapacityChecked(true) in t) && Adds(t, after, e)
    ensures Gated(after)
  {
    hide Gated;
    GatedAppend(t, e);
    GatedAppend(t, AnnotationsCleared);
    GatedAppend(t + [e], AnnotationsCleared);
  }

  lemma AttachedTraced(h: Hsm, env: Inputs)
    requires Sane(h, env) && Passable(h)
    requires h.status.health.errorType != DetachError
    requires env.meta.deleting ==> h.status.state in {Deprovisioning, PoweringOffBeforeDelete, Deleting}
    ensures Traced(h, AttemptAttached(h, env), env)
  {
    hide EnsureRegistered, Handle, Gated, Match;
    EnsureRegisteredEnrolls(h, env);
    EnsureRegisteredTrace(h, env);
    var r := EnsureRegistered(h, env);
    Extended(h, r.h.trace);
    if r.result == NoAction {
      HandlersNeedCommittedCredentials(h, env);
      HandlerTraced(r.h, env);
    }
  }

  lemma UndelayedTraced(h: Hsm, env: Inputs)
    requires Sane(h, env) && Passable(h)
    ensures Traced(h, AttemptUndelayed(h, env), env)
  {
    hide CheckDetachedHost, AttemptAttached, DelaysDeletion, GivesUpRegistering, Gated, Attempted;
    DetachedAttempted(h, env);
    if InitiatedState(h.next, h.status, env.meta).None? && CheckDetachedHost(h, env).result == NoAction {
      if env.meta.deleting {
        DeletionIsolates(h, env);
      }
      AttachedTraced(h, env);
    }
  }

  lemma AttemptTraced(h: Hsm, env: Inputs)
    requires Sane(h, env) && h.trace == []
    ensures var r := Attempt(h, env);
            && Gated(r.h.trace)
            && (if r.result.ActionDelayed? then
                  r.h.trace == [CapacityChecked(false)] && r.h.next == h.next && r.h.status.health.op == Delayed
                else Traced(h, r, env))
  {
    hide AttemptUndelayed, HealthInv, RetriesRegistration, DelaysDeletion, RegistersIn, Moves, Accounts, KeepsMetrics,
         Gated;
    var d := CheckDelayedHost(h, env);
    ShortTraces();
    if d.result == NoAction {
      assert Passable(d.h);
      assert Sane(d.h, env) by { assert HealthInv(h.status); }
      assert RegistersIn(d.h, env) == RegistersIn(h, env) by { RegistersInReadsNext(d.h, h, env); }
      UndelayedTraced(d.h, env);
      UndelayedAttempted(d.h, env);
    }
  }

  lemma ShortTraces()
    ensures Gated([]) && Gated([] + [CapacityChecked(true)]) && Gated([] + [CapacityChecked(false)])
  {
  }

  lemma RegistersInReadsNext(g: Hsm, h: Hsm, env: Inputs)
    requires g.next == h.next
    ensures RegistersIn(g, env) == RegistersIn(h, env)
  {
  }

  /** The trace up to the point where the deferred update enters the next state. */
  function Admitted(t: seq<Event>, next: State): seq<Event> {
    if NeedsCapacity(next) then t + [CapacityChecked(true)] else t
  }

  lemma DeferredTrace(a: Step, initial: State, env: Inputs)
    requires a.h.status.state == initial
    ensures var m := Deferred(a, initial, env);
            if a.h.next == initial then m == a
            else if m.h.status.state == initial then
              || m.h.trace == a.h.trace
              || (m.h.trace == a.h.trace + [CapacityChecked(false)] && m.result.ActionDelayed?
                 && m.h.status.health.op == Delayed)
            else
              && m.h.status.state == a.h.next
              && m.h.trace in {Admitted(a.h.trace, a.h.next) + [StateEntered(a.h.next)],
                               Admitted(a.h.trace, a.h.next) + [MetricObserved(initial)] + [StateEntered(a.h.next)]}
  {
    hide BeginMetric;
  }

  lemma AdmittedGated(t: seq<Event>, from: State, to: State)
    requires Gated(t)
    ensures Gated(Admitted(t, to) + [StateEntered(to)])
    ensures Gated(Admitted(t, to) + [MetricObserved(from)] + [StateEntered(to)])
  {
    hide Gated;
    GatedAppend(t, CapacityChecked(true));
    GatedAppend(Admitted(t, to), StateEntered(to));
    GatedAppend(Admitted(t, to), MetricObserved(from));
    GatedAppend(Admitted(t, to) + [MetricObserved(from)], StateEntered(to));
  }

  // ----- what every pass promises to an observer -----

  /** Every inspect, provision and deprovision call, and every entry into one of their states, comes after a
      successful capacity check in the same pass. */
  lemma ExpensiveWorkIsGated(s: Status, finalizer: bool, env: Inputs)
    requires Sane(Start(s, finalizer), env)
    ensures Gated(ReconcileState(s, finalizer, env).h.trace)
  {
    hide Attempt, Deferred, Gated;
    var h := Start(s, finalizer);
    AttemptTraced(h, env);
    AttemptAttempted(h, env);
    var a := Attempt(h, env);
    DeferredTrace(a, s.state, env);
    AdmittedGated(a.h.trace, s.state, a.h.next);
    GatedAppend(a.h.trace, CapacityChecked(false));
  }

  /** A pass that is refused capacity leaves the host where it was, delayed and to be saved. */
  lemma RefusalDelays(s: Status, finalizer: bool, env: Inputs)
    requires Sane(Start(s, finalizer), env)
    requires CapacityChecked(false) in ReconcileState(s, finalizer, env).h.trace
    ensures var m := ReconcileState(s, finalizer, env);
            m.result.ActionDelayed? && m.h.status.state == s.state && m.h.status.health.op == Delayed
  {
    hide Attempt, Deferred, Gated, HealthInv, Redeploys, Follows;
    var h := Start(s, finalizer);
    AttemptTraced(h, env);
    AttemptAttempted(h, env);
    DeferredTrace(Attempt(h, env), s.state, env);
  }

  /** The only handler a pass can run is that of the state it found; a host being deleted runs only the handlers of
      the deletion states; and a handler that follows registration finds the credentials of the secret already
      committed, with no registration error pending. */
  lemma HandlersRunInTurn(s: Status, finalizer: bool, env: Inputs, x: State)
    requires Sane(Start(s, finalizer), env)
    requires HandlerRun(x) in ReconcileState(s, finalizer, env).h.trace
    ensures x == s.state
    ensures env.meta.deleting ==> x in {Deprovisioning, PoweringOffBeforeDelete, Deleting}
    ensures env.haveCreds && x !in {NoState, Unmanaged, Registering, MatchProfile, Deleting}
            && !(x == Inspecting && (env.spec.inspectionDisabled || env.meta.inspect == InspectDisabled)) ==>
              && s.good ==
                 Credentials(Some(SecretRef(env.secret.name, env.secret.namespace)), env.secret.resourceVersion)
              && s.health.errorType != RegistrationError
  {
    hide Attempt, Deferred, Gated, HealthInv, Redeploys, Follows;
    var h := Start(s, finalizer);
    AttemptTraced(h, env);
    AttemptAttempted(h, env);
    DeferredTrace(Attempt(h, env), s.state, env);
  }

  /** A pass enters at most one state, and reports it exactly when it leaves the host there. */
  lemma EntriesAreTransitions(s: Status, finalizer: bool, env: Inputs, x: State)
    requires Sane(Start(s, finalizer), env)
    ensures var m := ReconcileState(s, finalizer, env);
            StateEntered(x) in m.h.trace <==> m.h.status.state == x != s.state
  {
    hide Attempt, Deferred, Gated, HealthInv, Redeploys, Follows, RegistersIn, RetriesRegistration;
    var h := Start(s, finalizer);
    AttemptTraced(h, env);
    AttemptAttempted(h, env);
    DeferredTrace(Attempt(h, env), s.state, env);
  }
}
