/** Invariants of every reachable host. */
module Invariants {
  import opened HostTypes
  import opened Actions
  import opened StateMachine
  import opened Machine
  import opened Pass

  /** Something is on record as deployed only while the host is provisioned or on its way out. */
  predicate RecordInv(s: Status) {
    Recorded(s.deployed) ==> s.state in {Provisioned, Deprovisioning, PoweringOffBeforeDelete, Deleting}
  }

  /** The metric of a state is open exactly in that state; the register metric at least there. */
  predicate MetricInv(s: Status) {
    && (s.history.inspect.Open() <==> s.state == Inspecting)
    && (s.history.provision.Open() <==> s.state == Provisioning)
    && (s.history.deprovision.Open() <==> s.state == Deprovisioning)
    && (s.state == Registering ==> s.history.register.Open())
  }

  predicate Invariant(s: Status) {
    HealthInv(s) && RecordInv(s) && MetricInv(s)
  }

  lemma TurnKeepsMetrics(s: Status, to: State, now: Time)
    requires MetricInv(s) && now != 0 && to != s.state
    ensures MetricInv(s.(state := to, history := Turn(s.history, s.state, to, now)))
  {
  }

  lemma MachineKeepsHealth(s: Status, finalizer: bool, env: Inputs)
    requires Sane(Start(s, finalizer), env)
    ensures HealthInv(ReconcileState(s, finalizer, env).h.status)
  {
    hide Attempt, Deferred, Redeploys;
    AttemptAttempted(Start(s, finalizer), env);
    DeferredUpdate(Start(s, finalizer), Attempt(Start(s, finalizer), env), env);
  }

  lemma MachineKeepsRecord(s: Status, finalizer: bool, env: Inputs)
    requires RecordInv(s) && Sane(Start(s, finalizer), env)
    ensures RecordInv(ReconcileState(s, finalizer, env).h.status)
  {
    hide Attempt, Deferred, HealthInv;
    AttemptAttempted(Start(s, finalizer), env);
    DeferredUpdate(Start(s, finalizer), Attempt(Start(s, finalizer), env), env);
  }

  lemma MachineKeepsMetrics(s: Status, finalizer: bool, env: Inputs)
    requires MetricInv(s) && Sane(Start(s, finalizer), env) && env.clock.transition != 0
    ensures MetricInv(ReconcileState(s, finalizer, env).h.status)
  {
    hide Attempt, Deferred, Redeploys, HealthInv, Turn, Follows;
    var a := Attempt(Start(s, finalizer), env);
    AttemptAttempted(Start(s, finalizer), env);
    DeferredUpdate(Start(s, finalizer), a, env);
    assert MetricInv(a.h.status);
    if a.h.next != s.state {
      TurnKeepsMetrics(a.h.status, a.h.next, env.clock.transition);
    }
  }

  lemma MachineKeepsInvariant(s: Status, finalizer: bool, env: Inputs)
    requires Invariant(s) && Sane(Start(s, finalizer), env) && env.clock.transition != 0
    ensures Invariant(ReconcileState(s, finalizer, env).h.status)
  {
    hide ReconcileState;
    MachineKeepsHealth(s, finalizer, env);
    MachineKeepsRecord(s, finalizer, env);
    MachineKeepsMetrics(s, finalizer, env);
  }

  /** The invariant is kept by every round, whatever the spec, the annotations, the provisioner and the API server
      do. */
  lemma RoundKeepsInvariant(s: Status, r: Round)
    requires Invariant(s) && WellFormed(r, s)
    ensures Invariant(Reconcile(s, r).status)
  {
    hide ReconcileState;
    if RunsMachine(s, r) {
      MachineKeepsInvariant(s, r.finalizer, r.env);
    }
  }

  lemma FreshInvariant()
    ensures Invariant(FRESH)
  {
  }

  lemma {:induction false} RunKeepsInvariant(states: seq<Status>, rounds: seq<Round>, i: nat)
    requires Run(states, rounds) && states[0] == FRESH && i < |states|
    ensures Invariant(states[i])
  {
    hide Reconcile, Invariant, WellFormed;
    if i == 0 {
      FreshInvariant();
    } else {
      RunKeepsInvariant(states, rounds, i - 1);
      RoundKeepsInvariant(states[i - 1], rounds[i - 1]);
    }
  }

  /** In every reachable state: what is on record, the open metrics and the shown errors fit the state. */
  lemma ReachableInvariant(s: Status)
    requires Reachable(s)
    ensures Invariant(s)
  {
    hide Reconcile, WellFormed, Invariant;
    var states: seq<Status>, rounds: seq<Round> :| Run(states, rounds) && states[0] == FRESH && states[|rounds|] == s;
    RunKeepsInvariant(states, rounds, |rounds|);
  }
}
