/** What one pass of the state machine can do: the transitions it allows and the summaries of its stages. */
module Machine {
  import opened HostTypes
  import opened ActionResults
  import opened Settings
  import opened Actions
  import opened StateMachine
  import opened Effects

  /** The transitions of the life cycle, without and with a deletion request. */
  predicate Follows(from: State, to: State, deleting: bool) {
    if deleting then
      || (to == Deleting && from != Deleting)
      || (to == Deprovisioning && from in {Provisioning, Provisioned})
      || (to == PoweringOffBeforeDelete
          && from !in {NoState, Unmanaged, Registering, Provisioning, Provisioned, PoweringOffBeforeDelete, Deleting})
    else
      match from
      case NoState => to in {Registering, Unmanaged}
      case Unmanaged => to == Registering
      case Registering => to in {ExternallyProvisioned, Preparing, Inspecting}
      case Inspecting => to == Preparing
      case MatchProfile => to == Preparing
      case ExternallyProvisioned => to == Provisioned
      case Preparing => to == Available
      case Available => to in {ExternallyProvisioned, Inspecting, Preparing, Provisioning}
      case Ready => to in {ExternallyProvisioned, Inspecting, Preparing, Provisioning}
      case Provisioning => to in {Deprovisioning, Provisioned}
      case Provisioned => to == Deprovisioning
      case Deprovisioning => to == Available
      case PoweringOffBeforeDelete => to == Deleting
      case Deleting => false
  }

  /** The record of what is deployed changes on entering Provisioned and on leaving Deprovisioning, where it stays if
      deprovisioning was given up for a deletion. */
  predicate Redeploys(before: Deployment, after: Deployment, from: State, to: State, spec: Spec) {
    if from in {Provisioning, ExternallyProvisioned} && to == Provisioned then after == Deployed(spec, before)
    else if from == Deprovisioning && to == Available then after == NOTHING_DEPLOYED
    else if from == Deprovisioning && to == PoweringOffBeforeDelete then after in {before, NOTHING_DEPLOYED}
    else after == before
  }

  /** A host that was never registered can only have failed to detach. */
  predicate EarlyErrors(s: Status) {
    s.state in {NoState, Unmanaged} ==> s.health.errorType in {NoError, DetachError}
  }

  predicate HealthInv(s: Status) {
    ErrorsShown(s) && EarlyErrors(s)
  }

  /** What a pass may do to the life cycle before the deferred update: stay, or complete and choose a successor. */
  predicate Moves(h: Hsm, r: Step, env: Inputs) {
    && r.h.server == h.server && r.h.status.state == h.status.state && r.h.status.bootMode == h.status.bootMode
    && Redeploys(h.status.deployed, r.h.status.deployed, h.status.state, r.h.next, env.spec)
    && (r.h.next == h.next || (r.result == ActionComplete && Follows(h.next, r.h.next, env.meta.deleting)))
  }

  /** A pass records at most one failure, and never hides or invents an error. */
  predicate Accounts(h: Hsm, r: Step) {
    && h.failures <= r.h.failures <= h.failures + 1
    && (r.result.ActionFailed? ==> r.h.failures == h.failures + 1)
    && (HealthInv(h.status) ==> HealthInv(r.h.status))
  }

  predicate Concludes(r: Step, state: State) {
    (Ongoing(r.result) || r.result.ActionComplete? || (r.result.DeleteComplete? && state == Deleting && !r.h.finalizer))
  }

  /** The event that the handler of a state may add; watching over a host may turn it off as well. */
  function CallOf(state: State): Event {
    match state
    case Inspecting => InspectCalled
    case Provisioning => ProvisionCalled
    case Deprovisioning => DeprovisionCalled
    case PoweringOffBeforeDelete => PowerOffCalled
    case _ => PowerOnCalled
  }

  predicate Handled(h: Hsm, r: Step, env: Inputs) {
    && Moves(h, r, env) && Accounts(h, r) && Concludes(r, h.status.state)
    && r.h.status.history == h.status.history && r.h.status.good in {h.status.good, h.server.good}
    && (|| Adds(h.trace, r.h.trace, CallOf(h.status.state))
        || (!NeedsCapacity(h.status.state) && Adds(h.trace, r.h.trace, PowerOffCalled)))
  }

  /** A handler may run for the host: it is aligned with the server and either not being deleted or in one of the
      states of a deletion. */
  predicate Runnable(h: Hsm, env: Inputs) {
    && Aligned(h)
    && (env.meta.deleting ==> h.status.state in {Deprovisioning, PoweringOffBeforeDelete, Deleting})
  }

  lemma EnrollingHandled(h: Hsm, env: Inputs)
    requires Runnable(h, env)
    requires h.status.state in {NoState, Unmanaged} ==> h.status.health.errorType == NoError
    ensures h.status.state == NoState ==> Handled(h, HandleNone(h, env), env)
    ensures h.status.state == Unmanaged ==> Handled(h, HandleUnmanaged(h, env), env)
    ensures h.status.state == Registering ==> Handled(h, HandleRegistering(h, env), env)
    ensures h.status.state == MatchProfile ==> Handled(h, HandleMatchProfile(h), env)
  {
  }

  lemma InspectingHandled(h: Hsm, env: Inputs)
    requires Runnable(h, env) && h.status.state == Inspecting
    ensures Handled(h, HandleInspecting(h, env), env)
  {
    hide Inspect;
    InspectEffect(h, env);
  }

  lemma PreparingHandled(h: Hsm, env: Inputs)
    requires Runnable(h, env) && h.status.state == Preparing
    ensures Handled(h, HandlePreparing(h, env), env)
  {
    hide PrepareHost;
    PrepareEffect(h, env);
  }

  lemma ExternallyProvisionedHandled(h: Hsm, env: Inputs)
    requires Runnable(h, env) && h.status.state == ExternallyProvisioned
    ensures Handled(h, HandleExternallyProvisioned(h, env), env)
  {
    hide ManageSteadyState, Deployed;
    SteadyStateEffect(h, env);
  }

  lemma AvailableHandled(h: Hsm, env: Inputs)
    requires Runnable(h, env) && h.status.state in {Available, Ready}
    ensures Handled(h, HandleAvailable(h, env), env)
  {
    hide ManageAvailable, Fixpoint, WantedHints, NeedsProvisioning, Handled;
    StayingHandled(h, env);
    forall next | next in {Inspecting, Preparing} {
      LeavingHandled(h, h.status.settings, next, env);
    }
    LeavingHandled(h, Clear(h.status.settings), ExternallyProvisioned, env);
    ManagingHandled(h, env);
  }

  lemma StayingHandled(h: Hsm, env: Inputs)
    requires Runnable(h, env)
    ensures Handled(h, Step(h, ActionError(false)), env)
  {
  }

  lemma LeavingHandled(h: Hsm, settings: HostSettings, next: State, env: Inputs)
    requires Runnable(h, env) && h.status.state in {Available, Ready}
    requires next in {Inspecting, Preparing, ExternallyProvisioned}
    ensures Handled(h, GoTo(h.(status := h.status.(settings := settings)), next), env)
  {
  }

  lemma ManagingHandled(h: Hsm, env: Inputs)
    requires Runnable(h, env) && h.status.state in {Available, Ready}
    ensures var r := ManageAvailable(h, env);
            Handled(h, if r.result == ActionComplete then GoTo(r.h, Provisioning) else r, env)
  {
    hide ManageAvailable, NeedsProvisioning;
    AvailableEffect(h, env);
  }

  lemma ProvisioningHandled(h: Hsm, env: Inputs)
    requires Runnable(h, env) && h.status.state == Provisioning
    ensures Handled(h, HandleProvisioning(h, env), env)
  {
    hide Provision, Cancelled, Deployed;
    ProvisionEffect(h, env);
  }

  lemma ProvisionedHandled(h: Hsm, env: Inputs)
    requires Runnable(h, env) && h.status.state == Provisioned
    ensures Handled(h, HandleProvisioned(h, env), env)
  {
    hide ManageSteadyState, Cancelled;
    SteadyStateEffect(h, env);
  }

  lemma DeprovisioningHandled(h: Hsm, env: Inputs)
    requires Runnable(h, env) && h.status.state == Deprovisioning
    ensures Handled(h, HandleDeprovisioning(h, env), env)
  {
    hide Deprovision;
    DeprovisionEffect(h, env);
  }

  lemma PoweringOffHandled(h: Hsm, env: Inputs)
    requires Runnable(h, env) && h.status.state == PoweringOffBeforeDelete
    ensures Handled(h, HandlePoweringOff(h, env), env)
  {
    hide PowerOffBeforeDeleting;
    PowerOffEffect(h, env);
  }

  lemma DeletingHandled(h: Hsm, env: Inputs)
    requires Runnable(h, env) && h.status.state == Deleting
    ensures Handled(h, HandleDeleting(h, env), env)
  {
    hide DeleteHost;
    DeleteEffect(h, env);
  }

  /** Every handler moves along the life cycle and accounts for its failures. */
  lemma HandlerHandled(h: Hsm, env: Inputs)
    requires Runnable(h, env)
    requires h.status.state in {NoState, Unmanaged} ==> h.status.health.errorType == NoError
    ensures Handled(Log(h, HandlerRun(h.status.state)), Handle(h, env), env)
  {
    hide Handled, HandleNone, HandleUnmanaged, HandleRegistering, HandleInspecting, HandleMatchProfile,
         HandleExternallyProvisioned, HandlePreparing, HandleAvailable, HandleProvisioning, HandleProvisioned,
         HandleDeprovisioning, HandlePoweringOff, HandleDeleting;
    var h1 := Log(h, HandlerRun(h.status.state));
    match h.status.state {
      case NoState => EnrollingHandled(h1, env);
      case Unmanaged => EnrollingHandled(h1, env);
      case Registering => EnrollingHandled(h1, env);
      case MatchProfile => EnrollingHandled(h1, env);
      case Inspecting => InspectingHandled(h1, env);
      case ExternallyProvisioned => ExternallyProvisionedHandled(h1, env);
      case Preparing => PreparingHandled(h1, env);
      case Available => AvailableHandled(h1, env);
      case Ready => AvailableHandled(h1, env);
      case Provisioning => ProvisioningHandled(h1, env);
      case Provisioned => ProvisionedHandled(h1, env);
      case Deprovisioning => DeprovisioningHandled(h1, env);
      case PoweringOffBeforeDelete => PoweringOffHandled(h1, env);
      case Deleting => DeletingHandled(h1, env);
    }
  }
}
