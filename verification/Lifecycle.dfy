/** What a whole pass promises: no lost transition, no lost host, no transition that is cancelled at once. */
module Lifecycle {
  import opened HostTypes
  import opened ActionResults
  import opened Settings
  import opened Actions
  import opened StateMachine
  import opened Effects
  import opened Machine
  import opened Registration
  import opened Pass
  import opened Invariants

  // ----- no lost transition, no lost host -----

  /** A pass that changes the state is saved, unless the API server refuses; a pass that ends without an error, for a
      host that is not gone, has the host looked at again; and a host is gone only from Deleting and without its
      finalizer. */
  lemma NothingIsLost(s: Status, finalizer: bool, env: Inputs, draw: real)
    requires Sane(Start(s, finalizer), env) && 0.0 <= draw < 1.0
    ensures var m := ReconcileState(s, finalizer, env);
            && !m.result.NoAction?
            && (m.h.status.state != s.state ==> Dirty(m.result))
            && (m.result.DeleteComplete? ==> s.state == Deleting && !m.h.finalizer)
            && (Outcome(m.result, draw).ComesBack() <==> !m.result.DeleteComplete?)
  {
    hide Attempt, Deferred, Outcome, HealthInv, Redeploys, Follows;
    var h := Start(s, finalizer);
    AttemptAttempted(h, env);
    DeferredUpdate(h, Attempt(h, env), env);
    OnlyDeletionStops(ReconcileState(s, finalizer, env).result, draw);
  }

  // ----- where transitions come from -----

  /** A transition of a host that is not being deleted is chosen by the handler of its state, run on a working copy
      that agrees with the server's status but for the credentials and the node ID. */
  lemma HandlerChose(s: Status, finalizer: bool, env: Inputs) returns (g: Hsm)
    requires Sane(Start(s, finalizer), env) && !env.meta.deleting
    requires ReconcileState(s, finalizer, env).h.status.state != s.state
    ensures Aligned(g) && g.server == s && g.status.state == s.state
    ensures var (m, r) := (ReconcileState(s, finalizer, env), Handle(g, env));
            && r.h.next == m.h.status.state && r.h.status.deployed == m.h.status.deployed
            && r.h.status.settings == m.h.status.settings && r.h.status.health == m.h.status.health
  {
    hide Handle, EnsureRegistered, Deferred, DetachHost, HealthInv, Redeploys, Follows;
    var h := Start(s, finalizer);
    var d := CheckDelayedHost(h, env);
    AttemptAttempted(h, env);
    DeferredUpdate(h, Attempt(h, env), env);
    assert Sane(d.h, env) by { SaneLogged(h, env); }
    DetachedAttempted(d.h, env);
    EnsureRegisteredEnrolls(d.h, env);
    g := EnsureRegistered(d.h, env).h;
    if EnsureRegistered(d.h, env).result == NoAction {
      HandlersNeedCommittedCredentials(d.h, env);
    }
  }

  lemma SaneLogged(h: Hsm, env: Inputs)
    requires Sane(h, env) && CheckDelayedHost(h, env).result == NoAction
    ensures Sane(CheckDelayedHost(h, env).h, env)
  {
  }

  // ----- no transition that is cancelled at once -----

  /** With nothing on record, provisioning is cancelled exactly when the spec asks for neither an image nor a custom
      deploy. */
  predicate AsksForSomething(spec: Spec) {
    HasURL(spec.image) || HasMethod(spec.customDeploy)
  }

  lemma AvailableChooses(g: Hsm, env: Inputs)
    requires g.status.state in {Available, Ready} && Aligned(g) && !Recorded(g.status.deployed)
    requires Handle(g, env).h.next == Provisioning
    ensures var s := Handle(g, env).h.status;
            !Recorded(s.deployed) && AsksForSomething(env.spec) && s.health.errorType == NoError
  {
    hide Fixpoint, WantedHints, ManagePower;
    ManagePowerEffect(Log(g, HandlerRun(g.status.state)), env);
  }

  lemma ProvisioningChooses(g: Hsm, env: Inputs)
    requires g.status.state == Provisioning && Aligned(g)
    ensures var r := Handle(g, env);
            && (r.h.next == Provisioned ==> !Cancelled(env.spec, g.status.deployed)
                                            && r.h.status.deployed == Deployed(env.spec, g.status.deployed))
            && (r.h.next == Deprovisioning <==>
                  g.status.health.errorType != NoError || Cancelled(env.spec, g.status.deployed))
  {
    hide Provision, Cancelled, Deployed;
    ProvisionEffect(Log(g, HandlerRun(Provisioning)), env);
  }

  lemma ExternallyProvisionedChooses(g: Hsm, env: Inputs)
    requires g.status.state == ExternallyProvisioned && Aligned(g)
    ensures Handle(g, env).h.next == Provisioned ==>
              Handle(g, env).h.status.deployed == Deployed(env.spec, g.status.deployed)
  {
    hide ManageSteadyState, Deployed;
    SteadyStateEffect(Log(g, HandlerRun(ExternallyProvisioned)), env);
  }

  /** A reachable host that starts provisioning has something to provision and no error pending: with the same spec
      the next pass does not cancel it. */
  lemma ProvisioningStartsUncancelled(s: Status, finalizer: bool, env: Inputs)
    requires Sane(Start(s, finalizer), env) && RecordInv(s) && s.state in {Available, Ready}
    requires ReconcileState(s, finalizer, env).h.status.state == Provisioning
    ensures var after := ReconcileState(s, finalizer, env).h.status;
            !Cancelled(env.spec, after.deployed) && after.health.errorType == NoError
  {
    hide ReconcileState, Handle, Recorded;
    DeletionDoesNotProvision(s, finalizer, env);
    var g := HandlerChose(s, finalizer, env);
    AvailableChooses(g, env);
    NothingRecorded(env.spec, Handle(g, env).h.status.deployed);
  }

  lemma NothingRecorded(spec: Spec, d: Deployment)
    requires !Recorded(d)
    ensures Cancelled(spec, d) <==> !AsksForSomething(spec)
    ensures !Cancelled(spec, d) ==> !Cancelled(spec, Deployed(spec, d))
    ensures Cancelled(spec, Deployed(spec, d)) <==> !AsksForSomething(spec)
  {
  }

  lemma DeletionDoesNotProvision(s: Status, finalizer: bool, env: Inputs)
    requires Sane(Start(s, finalizer), env)
    ensures env.meta.deleting ==>
              ReconcileState(s, finalizer, env).h.status.state in
                {s.state, Deprovisioning, PoweringOffBeforeDelete, Deleting}
  {
    hide Attempt, Deferred, HealthInv, Redeploys;
    AttemptAttempted(Start(s, finalizer), env);
    DeferredUpdate(Start(s, finalizer), Attempt(Start(s, finalizer), env), env);
  }

  /** A reachable host that has been provisioned holds what the spec asks for. */
  lemma ProvisionedLandsUncancelled(s: Status, finalizer: bool, env: Inputs)
    requires Sane(Start(s, finalizer), env) && RecordInv(s) && s.state == Provisioning
    requires ReconcileState(s, finalizer, env).h.status.state == Provisioned
    ensures !Cancelled(env.spec, ReconcileState(s, finalizer, env).h.status.deployed)
  {
    hide ReconcileState, Handle, Recorded, Cancelled, Deployed;
    DeletionDoesNotProvision(s, finalizer, env);
    var g := HandlerChose(s, finalizer, env);
    ProvisioningChooses(g, env);
    NothingRecorded(env.spec, g.status.deployed);
  }

  /** An adopted host that stops being externally provisioned is deprovisioned next exactly when the spec asks for
      nothing. */
  lemma AdoptedLandsUncancelled(s: Status, finalizer: bool, env: Inputs)
    requires Sane(Start(s, finalizer), env) && RecordInv(s) && s.state == ExternallyProvisioned
    requires ReconcileState(s, finalizer, env).h.status.state == Provisioned
    ensures Cancelled(env.spec, ReconcileState(s, finalizer, env).h.status.deployed) <==> !AsksForSomething(env.spec)
  {
    hide ReconcileState, Handle, Recorded, Cancelled, Deployed;
    DeletionDoesNotProvision(s, finalizer, env);
    var g := HandlerChose(s, finalizer, env);
    ExternallyProvisionedChooses(g, env);
    NothingRecorded(env.spec, g.status.deployed);
  }

  /** Provisioning is abandoned only for an error or because the spec no longer asks for anything. */
  lemma OnlyErrorsAbandonProvisioning(s: Status, finalizer: bool, env: Inputs)
    requires Sane(Start(s, finalizer), env) && RecordInv(s) && s.state == Provisioning && !env.meta.deleting
    requires ReconcileState(s, finalizer, env).h.status.state == Deprovisioning
    ensures s.health.errorType != NoError || !AsksForSomething(env.spec)
  {
    hide ReconcileState, Handle, Recorded, Cancelled;
    var g := HandlerChose(s, finalizer, env);
    ProvisioningChooses(g, env);
    NothingRecorded(env.spec, g.status.deployed);
  }

  // ----- no lost credentials -----

  /** New good credentials are those of the secret, and they are on their way to the server. */
  predicate CommitsToSave(good: Credentials, r: Step, env: Inputs) {
    r.h.status.good != good ==> Match(r.h.status.good, env.secret) && Dirty(r.result)
  }

  lemma RegisteringCompletes(h: Hsm, env: Inputs)
    requires h.status.state == Registering
    ensures Handle(h, env).h.status.good == h.status.good && Handle(h, env).result == ActionComplete
  {
  }

  lemma AttachedCommits(h: Hsm, env: Inputs)
    requires Sane(h, env)
    requires h.status.health.errorType != DetachError
    requires env.meta.deleting ==> h.status.state in {Deprovisioning, PoweringOffBeforeDelete, Deleting}
    ensures CommitsToSave(h.status.good, AttemptAttached(h, env), env)
  {
    hide EnsureRegistered, Handle, Match, Moves, Accounts, Concludes, RegistersIn, RetriesRegistration;
    EnsureRegisteredEnrolls(h, env);
    EnsureRegisteredCommits(h, env);
    var r := EnsureRegistered(h, env);
    if r.result == NoAction {
      HandlersNeedCommittedCredentials(h, env);
      HandlerHandled(r.h, env);
      if h.status.state == Registering {
        RegisteringCompletes(r.h, env);
      }
    }
  }

  lemma AttemptCommits(h: Hsm, env: Inputs)
    requires Sane(h, env)
    ensures CommitsToSave(h.status.good, Attempt(h, env), env)
  {
    hide AttemptAttached, DetachHost, HealthInv;
    var d := CheckDelayedHost(h, env);
    if d.result == NoAction {
      DetachEffect(d.h, env);
      SaneLogged(h, env);
      DetachedAttempted(d.h, env);
      if InitiatedState(d.h.next, d.h.status, env.meta).None? && CheckDetachedHost(d.h, env).result == NoAction {
        if env.meta.deleting {
          DeletionIsolates(d.h, env);
        }
        AttachedCommits(d.h, env);
      }
    }
  }

  /** Whenever a pass changes the good credentials without failing, they are those of the secret and its result is
      dirty, although registerHost itself may report nothing to save. */
  lemma CommitsAreSaved(s: Status, finalizer: bool, env: Inputs)
    requires Sane(Start(s, finalizer), env)
    requires ReconcileState(s, finalizer, env).h.status.good != s.good
    ensures var m := ReconcileState(s, finalizer, env);
            Match(m.h.status.good, env.secret) && (Dirty(m.result) || m.result.ActionError?)
  {
    hide Attempt, Deferred, HealthInv, Redeploys, Follows, Match;
    var h := Start(s, finalizer);
    AttemptAttempted(h, env);
    AttemptCommits(h, env);
    DeferredUpdate(h, Attempt(h, env), env);
  }

  // ----- reattaching -----

  /** A host that is detached, or could not be, and is no longer asked to be, is attached by the next pass that has
      capacity. It then shows an error exactly when one is still recorded; a failure to detach no longer is, and no
      longer counts. */
  lemma ReattachingShowsErrors(s: Status, finalizer: bool, env: Inputs)
    requires env.meta.detached == NotDetached && s.health.op != Delayed
    requires s.health.op == Detached || (s.health.errorType == DetachError && !env.meta.deleting)
    requires NeedsCapacity(s.state) ==> env.answers.capacityBefore == Capacity(true)
    ensures var m := ReconcileState(s, finalizer, env);
            && m.result.ActionUpdate? && m.h.status.state == s.state
            && m.h.status.health ==
               if s.health.errorType == DetachError then Health(OK, NoError, NoMessage, 0)
               else s.health.(op := if s.health.errorType != NoError then ErrorStatus else OK)
  {
  }

  /** A host that is detached when its deletion is requested stays where it is for as long as the annotation is missing,
      so that it can be attached again, or asks for delay; with any other annotation it goes straight to Deleting. */
  lemma DetachedHostIsDeletedOnRequest(s: Status, finalizer: bool, env: Inputs)
    requires s.health.op == Detached && env.meta.deleting && s.state != Deleting
    requires NeedsCapacity(s.state) ==> env.answers.capacityBefore == Capacity(true)
    ensures var (m, detached) := (ReconcileState(s, finalizer, env), env.meta.detached);
            if detached == NotDetached || (detached.Arguments? && detached.delay) then m.h.status.state == s.state
            else m.h.status.state == Deleting && m.result == ActionComplete
  {
    hide DetachHost;
    DetachEffect(CheckDelayedHost(Start(s, finalizer), env).h, env);
  }

  // ----- enrolling -----

  /** Nothing keeps a new host from its handler: it is neither delayed nor being detached or attached. */
  predicate Unhindered(s: Status, env: Inputs) {
    && s.health.op !in {Delayed, Detached} && s.health.errorType != DetachError
    && !(env.meta.detached.Arguments? && env.meta.detached.force)
  }

  /** A host is registered as soon as it has BMC details, and only then: until it has them it stays unmanaged, and is
      shown as discovered. */
  lemma DetailsDecideEnrolment(s: Status, finalizer: bool, env: Inputs)
    requires s.state in {NoState, Unmanaged} && !env.meta.deleting
    ensures var after := ReconcileState(s, finalizer, env).h.status;
            && after.state == (if !Unhindered(s, env) then s.state
                               else if env.spec.bmcAddress != "" || env.spec.credentialsName != "" then Registering
                               else Unmanaged)
            && (s.state == NoState && after.state == Unmanaged ==> after.health == s.health.(op := Discovered))
  {
    hide Enter, Attempt, Unhindered, HasBMCDetails;
    var h := Start(s, finalizer);
    NewHostAttempt(h, env);
    EnterMoves(Attempt(h, env).h, s.state, env);
    Details(env.spec);
  }

  lemma Details(spec: Spec)
    ensures HasBMCDetails(spec) <==> spec.bmcAddress != "" || spec.credentialsName != ""
  {
  }

  lemma NewHostAttempt(h: Hsm, env: Inputs)
    requires AtStart(h) && h.status.state in {NoState, Unmanaged} && !env.meta.deleting
    ensures var r := Attempt(h, env);
            && r.h.status.state == h.status.state
            && r.h.next == (if !Unhindered(h.status, env) then h.status.state
                            else if HasBMCDetails(env.spec) then Registering else Unmanaged)
            && (h.status.state == NoState && r.h.next == Unmanaged ==>
                  r.h.status.health == h.status.health.(op := Discovered))
  {
    hide DetachHost, AttemptAttached, HasBMCDetails;
    DetachEffect(h, env);
    NewHostMoves(h, env);
  }

  /** An unmanaged host is looked at from time to time, and left as it is. */
  lemma UnmanagedHostWaits(s: Status, finalizer: bool, env: Inputs)
    requires s.state == Unmanaged && !env.meta.deleting && Unhindered(s, env)
    requires env.spec.bmcAddress == "" && env.spec.credentialsName == ""
    ensures ReconcileState(s, finalizer, env).h.status == s
    ensures ReconcileState(s, finalizer, env).result == ActionContinue(600)
  {
    hide AttemptAttached, DetachHost;
    NewHostMoves(Start(s, finalizer), env);
  }

  lemma NewHostMoves(h: Hsm, env: Inputs)
    requires h.status.state in {NoState, Unmanaged} && h.next == h.status.state
    ensures var r := AttemptAttached(h, env);
            && r.h.status.state == h.status.state
            && r.h.next == (if HasBMCDetails(env.spec) then Registering else Unmanaged)
            && (h.status.state == NoState && r.h.next == Unmanaged ==>
                  r.h.status.health == h.status.health.(op := Discovered))
            && (h.status.state == r.h.next == Unmanaged ==> r.h.status == h.status && r.result == ActionContinue(600))
  {
  }

  lemma EnterMoves(h: Hsm, initial: State, env: Inputs)
    ensures Enter(h, initial, env).status.state == h.next && Enter(h, initial, env).status.health == h.status.health
  {
  }

  lemma RegisteringCommits(h: Hsm, env: Inputs)
    requires AtStart(h) && env.haveCreds && env.clock.registerBegin != 0 && h.status.state == Registering
    requires AttemptAttached(h, env).h.next != Registering
    ensures var r := AttemptAttached(h, env);
            && Match(r.h.status.good, env.secret) && r.h.status.health.errorType != RegistrationError
            && r.h.status.health.errorCount == 0
  {
    hide RegisterHost, Match;
    RegisterEffect(h, env);
    RegisterCommits(h, env);
    HandlersNeedCommittedCredentials(h, env);
  }

  /** A host leaves Registering only with the credentials of the secret committed, no registration error pending and the
      failures forgotten. */
  lemma RegisteringEndsCommitted(s: Status, finalizer: bool, env: Inputs)
    requires Sane(Start(s, finalizer), env) && s.state == Registering && env.haveCreds && !env.meta.deleting
    requires ReconcileState(s, finalizer, env).h.status.state != Registering
    ensures var after := ReconcileState(s, finalizer, env).h.status;
            && Match(after.good, env.secret) && after.health.errorType != RegistrationError
            && after.health.errorCount == 0
  {
    hide AttemptAttached, CheckDetachedHost, Deferred, Match, HealthInv, Redeploys, Follows, Attempted;
    var h := Start(s, finalizer);
    AttemptAttempted(h, env);
    DeferredUpdate(h, Attempt(h, env), env);
    DetachedAttempted(h, env);
    if AttemptAttached(h, env).h.next != Registering {
      RegisteringCommits(h, env);
    }
  }
}
