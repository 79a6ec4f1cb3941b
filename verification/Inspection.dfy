/** Where a host goes from registration, and that no host gets past inspection without being inspected. */
module Inspection {
  import opened HostTypes
  import opened ActionResults
  import opened Actions
  import opened StateMachine
  import opened Machine
  import opened Registration
  import opened Pass
  import opened Invariants
  import opened Traces
  import opened Lifecycle

  /** A host that is not being deleted leaves Registering for ExternallyProvisioned if the spec says that it is
      externally provisioned, else for Preparing if spec or annotation disable the inspection, and else for Inspecting;
      nothing else decides. */
  lemma RegistrationDecides(s: Status, finalizer: bool, env: Inputs)
    requires Sane(Start(s, finalizer), env) && s.state == Registering && !env.meta.deleting
    requires ReconcileState(s, finalizer, env).h.status.state != Registering
    ensures var to := ReconcileState(s, finalizer, env).h.status.state;
            && (to == ExternallyProvisioned <==> env.spec.externallyProvisioned)
            && (to == Preparing <==>
                  && !env.spec.externallyProvisioned
                  && (env.spec.inspectionDisabled || env.meta.inspect == InspectDisabled))
            && (to == Inspecting <==>
                  && !env.spec.externallyProvisioned
                  && !env.spec.inspectionDisabled && env.meta.inspect != InspectDisabled)
  {
    hide ReconcileState, HealthInv;
    var g := HandlerChose(s, finalizer, env);
  }

  // ----- no way around inspection -----

  /** The round gives leave to skip the inspection. */
  predicate Waives(r: Round) {
    r.env.spec.externallyProvisioned || r.env.spec.inspectionDisabled || r.env.meta.inspect == InspectDisabled
  }

  /** The round asks for inspection, gets the details of the hardware and saves them, and the host goes on. */
  predicate Inspects(s: Status, r: Round) {
    && InspectCalled in Reconcile(s, r).trace && Reconcile(s, r).saved
    && r.env.answers.inspect.Complete() && r.env.answers.detailsFound && r.env.answers.hardwareDataSaved
  }

  /** The states that a host can be in before it is inspected; the last two only because it is deleted before. */
  const UNINSPECTED := {NoState, Unmanaged, Registering, Inspecting, PoweringOffBeforeDelete, Deleting}

  /** What happens in a handler is part of the trace of the pass. */
  lemma InspectionIsTraced(s: Status, finalizer: bool, env: Inputs)
    requires Sane(Start(s, finalizer), env) && s.state == Inspecting && !env.meta.deleting
    requires ReconcileState(s, finalizer, env).h.status.state == Preparing
    requires !env.spec.inspectionDisabled && env.meta.inspect != InspectDisabled
    ensures InspectCalled in ReconcileState(s, finalizer, env).h.trace
    ensures env.answers.inspect.Complete() && env.answers.detailsFound && env.answers.hardwareDataSaved
    ensures ReconcileState(s, finalizer, env).result == ActionComplete
  {
    hide EnsureRegistered, Handle, Deferred, CheckDetachedHost, HealthInv, Redeploys, Follows, Attempted;
    var h := Start(s, finalizer);
    var d := CheckDelayedHost(h, env);
    AttemptAttempted(h, env);
    var a := Attempt(h, env);
    DeferredUpdate(h, a, env);
    DeferredTrace(a, s.state, env);
    DetachedAttempted(d.h, env);
    EnsureRegisteredEnrolls(d.h, env);
    HandlersNeedCommittedCredentials(d.h, env);
    InspectingCompletes(EnsureRegistered(d.h, env).h, env);
  }

  lemma InspectingCompletes(g: Hsm, env: Inputs)
    requires g.status.state == g.next == Inspecting && Handle(g, env).h.next == Preparing
    requires !env.spec.inspectionDisabled && env.meta.inspect != InspectDisabled
    ensures InspectCalled in Handle(g, env).h.trace
    ensures env.answers.inspect.Complete() && env.answers.detailsFound && env.answers.hardwareDataSaved
  {
  }

  lemma RoundInspects(s: Status, r: Round)
    requires WellFormed(r, s) && Invariant(s) && s.state in UNINSPECTED && !Waives(r)
    ensures Reconcile(s, r).status.state in UNINSPECTED || Inspects(s, r)
  {
    hide ReconcileState, Attempt, Deferred, Invariant, Redeploys;
    if RunsMachine(s, r) {
      var h := Start(s, r.finalizer);
      assert HealthInv(s) by { InvariantHealth(s); }
      AttemptAttempted(h, r.env);
      var m := ReconcileState(s, r.finalizer, r.env);
      MachineFollows(s, r.finalizer, r.env);
      if s.state == Registering && m.h.status.state != Registering && !r.env.meta.deleting {
        RegistrationDecides(s, r.finalizer, r.env);
      }
      if s.state == Inspecting && m.h.status.state == Preparing {
        InspectionIsTraced(s, r.finalizer, r.env);
      }
    }
  }

  lemma InvariantHealth(s: Status)
    requires Invariant(s)
    ensures HealthInv(s)
  {
  }

  lemma MachineFollows(s: Status, finalizer: bool, env: Inputs)
    requires Sane(Start(s, finalizer), env)
    ensures var to := ReconcileState(s, finalizer, env).h.status.state;
            to == s.state || Follows(s.state, to, env.meta.deleting)
  {
    hide Attempt, Deferred, HealthInv, Redeploys;
    AttemptAttempted(Start(s, finalizer), env);
    DeferredUpdate(Start(s, finalizer), Attempt(Start(s, finalizer), env), env);
  }

  /** In every run of a new host, there is no way past inspection: once the host is being prepared or beyond, some round
      before has inspected it and saved what was found, or gave leave to do without. */
  lemma {:induction false} NoWayAroundInspection(states: seq<Status>, rounds: seq<Round>, i: nat, j: nat)
    returns (k: nat)
    requires Run(states, rounds) && states[0] == FRESH && i <= j < |states|
    requires states[i].state in UNINSPECTED && states[j].state !in UNINSPECTED
    ensures i <= k < j && (Waives(rounds[k]) || Inspects(states[k], rounds[k]))
    decreases j
  {
    hide Reconcile, WellFormed, Waives, Inspects, Invariant;
    k := j - 1;
    if states[k].state !in UNINSPECTED {
      k := NoWayAroundInspection(states, rounds, i, j - 1);
    } else if !Waives(rounds[k]) {
      RunKeepsInvariant(states, rounds, k);
      RoundInspects(states[k], rounds[k]);
    }
  }
}
