/** Where a pass takes the host, for every state and in terms of what the pass reads: what decides that it goes on, goes
    back or stays. */
module Decisions {
  import opened HostTypes
  import opened ActionResults
  import opened Settings
  import opened IronicPrepare
  import opened Actions
  import opened StateMachine
  import opened Effects
  import opened Machine
  import opened Registration
  import opened Pass
  import opened Traces

  // ----- a pass whose handler runs -----

  /** What is known of a pass whose handler ran: it is what the handler makes of a copy `g` of the status on the server,
      with only credentials and node ID changed, after the deferred update; the host is neither delayed nor detached. */
  predicate Ran(s: Status, finalizer: bool, env: Inputs, g: Hsm) {
    && Aligned(g) && g.server == s && g.finalizer == finalizer
    && (forall e | e in g.trace :: e.CapacityChecked? || e == RegisterCalled)
    && Attempt(Start(s, finalizer), env) == Handle(g, env)
    && ReconcileState(s, finalizer, env) == Deferred(Handle(g, env), s.state, env)
    && s.health.op !in {Delayed, Detached} && s.health.errorType != DetachError
  }

  lemma HandlerRan(s: Status, finalizer: bool, env: Inputs) returns (g: Hsm)
    requires Sane(Start(s, finalizer), env)
    requires HandlerRun(s.state) in ReconcileState(s, finalizer, env).h.trace
    ensures Ran(s, finalizer, env, g)
  {
    hide Handle, EnsureRegistered, Deferred, Attempt, HealthInv, AttemptAttached;
    var h := Start(s, finalizer);
    AttemptAttempted(h, env);
    DeferredTrace(Attempt(h, env), s.state, env);
    var d := GuardsPassed(h, env, HandlerRun(s.state));
    g := RegistrationPassed(d, env);
  }

  /** The guards before registration only check capacity. */
  lemma GuardsPassed(h: Hsm, env: Inputs, e: Event) returns (d: Hsm)
    requires AtStart(h) && h.trace == [] && (e.HandlerRun? || e == RegisterCalled) && e in Attempt(h, env).h.trace
    ensures Attempt(h, env) == AttemptAttached(d, env)
    ensures AtStart(d) && d == h.(trace := d.trace) && forall x | x in d.trace :: x.CapacityChecked?
    ensures h.status.health.op !in {Delayed, Detached} && h.status.health.errorType != DetachError
    ensures env.meta.deleting ==> h.status.state in {Deprovisioning, PoweringOffBeforeDelete, Deleting}
  {
    hide AttemptAttached, CheckDetachedHost, InitiatedState, Attempted;
    d := CheckDelayedHost(h, env).h;
    if AtStart(d) {
      DetachedAttempted(d, env);
      if env.meta.deleting && InitiatedState(d.next, d.status, env.meta).None?
         && CheckDetachedHost(d, env).result == NoAction {
        DeletionIsolates(d, env);
      }
    }
  }

  lemma RegistrationPassed(d: Hsm, env: Inputs) returns (g: Hsm)
    requires AtStart(d) && env.clock.registerBegin != 0 && forall x | x in d.trace :: x.CapacityChecked?
    requires HandlerRun(d.status.state) in AttemptAttached(d, env).h.trace
    ensures AttemptAttached(d, env) == Handle(g, env)
    ensures Aligned(g) && g.server == d.server && g.finalizer == d.finalizer
    ensures forall x | x in g.trace :: x.CapacityChecked? || x == RegisterCalled
  {
    hide Handle, EnsureRegistered;
    EnsureRegisteredEnrolls(d, env);
    EnsureRegisteredTrace(d, env);
    HandlersNeedCommittedCredentials(d, env);
    g := EnsureRegistered(d, env).h;
  }

  // ----- the deferred update -----

  predicate HasRoom(env: Inputs) {
    env.answers.capacityAfter == Capacity(true)
  }

  /** With capacity, the host gets where the handler sends it. */
  lemma Gets(a: Step, initial: State, env: Inputs)
    requires HasRoom(env) && a.h.status.state == initial
    ensures var m := Deferred(a, initial, env);
            && m.h.status.state == a.h.next && m.result == a.result && m.h.finalizer == a.h.finalizer
            && m.h.status == a.h.status.(state := m.h.status.state, history := m.h.status.history,
                                         bootMode := m.h.status.bootMode)
  {
    hide EndMetric, BeginMetric;
    if a.h.next != initial {
      var c := if NeedsCapacity(a.h.next) then EnsureCapacity(a.h, env.answers.capacityAfter) else Step(a.h, NoAction);
      MetricsTurn(c.h, initial, a.h.next, env.clock.transition);
      EndTouchesMetrics(c.h, initial, env.clock.transition);
    }
  }

  lemma EndTouchesMetrics(h: Hsm, state: State, now: Time)
    ensures var r := EndMetric(h, state, now);
            r == h.(status := h.status.(history := r.status.history), trace := r.trace)
  {
    hide SetMetric, MetricFor;
  }

  /** With capacity, a pass whose handler runs leaves what the handler makes of its copy. */
  lemma HandlerGets(s: Status, finalizer: bool, env: Inputs) returns (g: Hsm)
    requires Sane(Start(s, finalizer), env) && HasRoom(env)
    requires HandlerRun(s.state) in ReconcileState(s, finalizer, env).h.trace
    ensures Ran(s, finalizer, env, g)
    ensures var (m, r) := (ReconcileState(s, finalizer, env), Handle(g, env));
            && m.h.status.state == r.h.next && m.result == r.result && m.h.finalizer == r.h.finalizer
            && m.h.status == r.h.status.(state := m.h.status.state, history := m.h.status.history,
                                         bootMode := m.h.status.bootMode)
            && (AnnotationsCleared in m.h.trace <==> AnnotationsCleared in r.h.trace)
  {
    hide Handle, Deferred, Attempt, HealthInv, Aligned, Redeploys, Follows;
    g := HandlerRan(s, finalizer, env);
    AttemptAttempted(Start(s, finalizer), env);
    DeferredTrace(Attempt(Start(s, finalizer), env), s.state, env);
    Gets(Handle(g, env), s.state, env);
  }

  // ----- what decides -----

  /** The host goes to Deprovisioning when neither an image nor a custom deploy is asked for, or something is on record
      that is not what is asked for. */
  predicate Contradicted(spec: Spec, d: Deployment) {
    var url := if spec.image.Some? then spec.image.value.url else "";
    var deploy := if spec.customDeploy.Some? then spec.customDeploy.value else "";
    (url == "" && deploy == "")
    || (d.image.url != "" && d.image.url != url)
    || (d.customDeploy.Some? && d.customDeploy.value != "" && d.customDeploy.value != deploy)
  }

  lemma CancelledMeansContradicted(spec: Spec, d: Deployment)
    ensures Cancelled(spec, d) <==> Contradicted(spec, d)
  {
  }

  /** The host is to be inspected and all that belongs to it has been done. */
  predicate Inspected(env: Inputs) {
    var a := env.answers;
    && a.inspect.Complete() && a.detailsFound && a.hardwareDataSaved
    && !(a.inspectStarted && (env.meta.inspect == InspectRefresh || env.meta.anyReboot))
  }

  lemma InspectingNext(g: Hsm, env: Inputs)
    requires g.status.state == g.next == Inspecting
    ensures var r := Handle(g, env);
            && r.h.next ==
               (if env.spec.inspectionDisabled || env.meta.inspect == InspectDisabled || Inspected(env) then Preparing
                else Inspecting)
            && (r.h.next == Preparing ==> r.h.status.health.errorCount == 0)
            && (r.h.next == Preparing && Inspected(env) && !env.spec.inspectionDisabled
                && env.meta.inspect != InspectDisabled ==>
                  r.h.status.health == Health(OK, NoError, NoMessage, 0))
  {
  }

  /** Inspection ends when it is disabled or done, with the details of the hardware found and saved; failures are then
      forgotten, and errors are cleared. */
  lemma InspectingDecides(s: Status, finalizer: bool, env: Inputs)
    requires Sane(Start(s, finalizer), env) && s.state == Inspecting && HasRoom(env)
    requires HandlerRun(Inspecting) in ReconcileState(s, finalizer, env).h.trace
    ensures var after := ReconcileState(s, finalizer, env).h.status;
            && after.state ==
               (if env.spec.inspectionDisabled || env.meta.inspect == InspectDisabled || Inspected(env) then Preparing
                else Inspecting)
            && (after.state == Preparing ==> after.health.errorCount == 0)
            && (after.state == Preparing && Inspected(env) && !env.spec.inspectionDisabled
                && env.meta.inspect != InspectDisabled ==>
                  after.health == Health(OK, NoError, NoMessage, 0))
  {
    hide ReconcileState, Handle, HealthInv;
    var g := HandlerGets(s, finalizer, env);
    InspectingNext(g, env);
  }

  /** The hints to use are known, and the settings on record are those of the spec. */
  predicate SettingsApplied(s: Status, env: Inputs) {
    var hints := if env.spec.rootDeviceHints.Some? then env.spec.rootDeviceHints
                 else if s.hardwareProfile in env.profiles then Some(env.profiles[s.hardwareProfile]) else None;
    && hints.Some? && s.settings.rootDeviceHints == hints
    && s.settings.firmware == env.spec.firmware && RAIDApplied(env.spec.raid, s.settings.raid)
  }

  predicate HintsKnown(s: Status, env: Inputs) {
    env.spec.rootDeviceHints.Some? || s.hardwareProfile in env.profiles
  }

  lemma AppliedMeansFixpoint(s: Status, env: Inputs)
    ensures HintsKnown(s, env) <==> WantedHints(SourceFor(env, s)).Some?
    ensures SettingsApplied(s, env) <==>
            WantedHints(SourceFor(env, s)).Some? && Fixpoint(SourceFor(env, s), s.settings)
  {
    hide Fixpoint, RAIDApplied;
    if HintsKnown(s, env) {
      FixpointMeans(SourceFor(env, s), s.settings);
    }
  }

  /** Something is asked for that is not there yet, of a host that is to be online. */
  predicate ToBeProvisioned(s: Status, env: Inputs) {
    var url := if env.spec.image.Some? then env.spec.image.value.url else "";
    var deploy := if env.spec.customDeploy.Some? then env.spec.customDeploy.value else "";
    && env.spec.online
    && ((url != "" && s.deployed.image.url == "") || (deploy != "" && s.deployed.customDeploy != Some(deploy)))
  }

  /** Where an available host goes. */
  function FromAvailable(s: Status, env: Inputs): State {
    var (hfs, hfc) := (env.answers.hfs, env.answers.hfc);
    if env.spec.externallyProvisioned then ExternallyProvisioned
    else if env.meta.inspect == InspectRefresh then Inspecting
    else if !HintsKnown(s, env) then s.state
    else if !SettingsApplied(s, env) || hfs == Pending(true) || (hfs == Pending(false) && hfc == Pending(true)) then
      Preparing
    else if hfs.NotReady? || hfc.NotReady? || !ToBeProvisioned(s, env) then s.state
    else Provisioning
  }

  lemma AvailableNext(g: Hsm, env: Inputs)
    requires Aligned(g) && g.status.state in {Available, Ready}
    ensures var r := Handle(g, env);
            && r.h.next == FromAvailable(g.status, env)
            && (r.h.next == ExternallyProvisioned ==> Forgotten(g.status.settings, r.h.status.settings))
            && (r.h.next == Provisioning ==>
                  r.h.status.health == Health(OK, NoError, NoMessage, g.status.health.errorCount))
  {
    hide Fixpoint, WantedHints, ManagePower, SettingsApplied, HintsKnown, Clear, Forgotten;
    AppliedMeansFixpoint(g.status, env);
    ClearForgets(g.status.settings);
    ManagePowerEffect(Log(g, HandlerRun(g.status.state)), env);
  }

  lemma FromAvailableReads(a: Status, b: Status, env: Inputs)
    requires a == b.(tried := a.tried, id := a.id, good := a.good)
    ensures FromAvailable(a, env) == FromAvailable(b, env)
  {
  }

  /** An available host is adopted, inspected again, prepared again or provisioned, in this order of precedence, or it
      stays. A host that is adopted loses its settings but for the hardware volumes, and one that is provisioned any
      error. */
  lemma AvailableDecides(s: Status, finalizer: bool, env: Inputs)
    requires Sane(Start(s, finalizer), env) && s.state in {Available, Ready} && HasRoom(env)
    requires HandlerRun(s.state) in ReconcileState(s, finalizer, env).h.trace
    ensures var after := ReconcileState(s, finalizer, env).h.status;
            && after.state == FromAvailable(s, env)
            && (after.state == ExternallyProvisioned ==> Forgotten(s.settings, after.settings))
            && (after.state == Provisioning ==> after.health == Health(OK, NoError, NoMessage, s.health.errorCount))
  {
    hide ReconcileState, Handle, HealthInv, FromAvailable, Forgotten;
    var g := HandlerGets(s, finalizer, env);
    AvailableNext(g, env);
    FromAvailableReads(g.status, s, env);
  }

  // ----- provisioning and deprovisioning -----

  /** Where a host goes whose image or custom deploy is being written. */
  function FromProvisioning(s: Status, env: Inputs): State {
    if s.health.errorType != NoError || Contradicted(env.spec, s.deployed) then Deprovisioning
    else if s.hardwareProfile in env.profiles && env.answers.imageAuthError.None? && env.answers.provision.Complete()
            && !env.meta.anyReboot then Provisioned
    else Provisioning
  }

  /** What the spec names goes on record, and what it does not mention stays there. */
  predicate Records(spec: Spec, before: Deployment, after: Deployment) {
    && after.image == (if spec.image.Some? then spec.image.value else before.image)
    && after.customDeploy == (if spec.customDeploy.Some? then spec.customDeploy else before.customDeploy)
  }

  lemma ProvisioningNext(g: Hsm, env: Inputs)
    requires Aligned(g) && g.status.state == Provisioning
    ensures Handle(g, env).h.next == FromProvisioning(g.status, env)
    ensures var (d, s) := (g.status.deployed, Handle(g, env).h.status);
            Handle(g, env).h.next == Provisioned ==>
              Records(env.spec, d, s.deployed) && s.health.errorCount == 0
  {
    hide Contradicted, Cancelled;
    CancelledMeansContradicted(env.spec, g.status.deployed);
  }

  /** Provisioning is given up for an error or a spec that contradicts what is on record, and done when the provisioner
      is done; then what the spec names is on record. */
  lemma ProvisioningDecides(s: Status, finalizer: bool, env: Inputs)
    requires Sane(Start(s, finalizer), env) && s.state == Provisioning && HasRoom(env)
    requires HandlerRun(Provisioning) in ReconcileState(s, finalizer, env).h.trace
    ensures var after := ReconcileState(s, finalizer, env).h.status;
            && after.state == FromProvisioning(s, env)
            && (after.state == Provisioned ==>
                  Records(env.spec, s.deployed, after.deployed) && after.health.errorCount == 0)
  {
    hide ReconcileState, Handle, HealthInv, Contradicted;
    var g := HandlerGets(s, finalizer, env);
    ProvisioningNext(g, env);
  }

  lemma ProvisionedNext(g: Hsm, env: Inputs)
    requires Aligned(g) && g.status.state in {Provisioned, ExternallyProvisioned}
    ensures g.status.state == Provisioned ==>
              Handle(g, env).h.next == if Contradicted(env.spec, g.status.deployed) then Deprovisioning else Provisioned
    ensures g.status.state == ExternallyProvisioned ==>
              && Handle(g, env).h.next ==
                 (if env.spec.externallyProvisioned then ExternallyProvisioned else Provisioned)
              && (!env.spec.externallyProvisioned ==>
                    Records(env.spec, g.status.deployed, Handle(g, env).h.status.deployed))
  {
    hide Contradicted, Cancelled, ManageSteadyState;
    CancelledMeansContradicted(env.spec, g.status.deployed);
    SteadyStateEffect(Log(g, HandlerRun(g.status.state)), env);
  }

  /** A provisioned host is deprovisioned when the spec contradicts what is on record, and one that is provisioned
      externally stays so while the spec says it; then it is taken to hold what the spec names. */
  lemma ProvisionedDecides(s: Status, finalizer: bool, env: Inputs)
    requires Sane(Start(s, finalizer), env) && s.state in {Provisioned, ExternallyProvisioned} && HasRoom(env)
    requires HandlerRun(s.state) in ReconcileState(s, finalizer, env).h.trace
    ensures var after := ReconcileState(s, finalizer, env).h.status;
            && after.state == (if s.state == ExternallyProvisioned then
                                 if env.spec.externallyProvisioned then ExternallyProvisioned else Provisioned
                               else if Contradicted(env.spec, s.deployed) then Deprovisioning else Provisioned)
            && (s.state == ExternallyProvisioned && after.state == Provisioned ==>
                  Records(env.spec, s.deployed, after.deployed))
  {
    hide ReconcileState, Handle, HealthInv, Contradicted;
    var g := HandlerGets(s, finalizer, env);
    ProvisionedNext(g, env);
  }

  /** Only the hardware volumes are left of the settings. */
  predicate Forgotten(before: HostSettings, after: HostSettings) {
    && after.rootDeviceHints.None? && after.firmware.None? && (after.raid.Some? <==> before.raid.Some?)
    && (after.raid.Some? ==>
          after.raid.value.software.None? && after.raid.value.hardware == before.raid.value.hardware)
  }

  /** Something is on record that has to be adopted before it can be taken off. */
  predicate Adopts(s: Status) {
    s.deployed.image.url != "" || s.deployed.customDeploy.Some?
  }

  /** The provisioner's answer on which deprovisioning depends, and the error that a failure is recorded as. */
  function DeprovisionAnswer(s: Status, env: Inputs): Answer {
    if Adopts(s) && !env.answers.adopt.Complete() then env.answers.adopt else env.answers.deprovision
  }

  /** Where a host goes that is being deprovisioned: on failures a deletion is held up four times at most. */
  function FromDeprovisioning(s: Status, env: Inputs): State {
    var answer := DeprovisionAnswer(s, env);
    if answer.Error? then if env.meta.deleting && answer.needsRegistration && !env.haveCreds then Deleting
                          else Deprovisioning
    else if answer.message != NoMessage then
      if env.meta.deleting && s.health.errorCount >= 3 then PoweringOffBeforeDelete else Deprovisioning
    else if answer.dirty || env.meta.anyReboot then Deprovisioning
    else if env.meta.deleting then PoweringOffBeforeDelete
    else Available
  }

  /** What deprovisioning reports, by the provisioner's answer. */
  lemma DeprovisionReports(h: Hsm, env: Inputs)
    ensures var (s, r, answer) := (h.status, Deprovision(h, env), DeprovisionAnswer(h.status, env));
            && r.h.next == h.next
            && (answer.Error? ==> r.result == ActionError(answer.needsRegistration))
            && (answer.Result? && answer.message != NoMessage ==>
                  r.result.ActionFailed? && r.h.status.health.errorCount == s.health.errorCount + 1)
            && (answer.Result? && answer.message == NoMessage && (answer.dirty || env.meta.anyReboot) ==>
                  r.result.ActionContinue? || r.result.ActionUpdate? || r.result == ActionError(false))
            && (answer.Complete() && !env.meta.anyReboot ==>
                  && r.result == ActionComplete && Forgotten(s.settings, r.h.status.settings)
                  && r.h.status.deployed == Deployment(Image("", "", "", None, None), None))
  {
  }

  lemma DeprovisioningNext(g: Hsm, env: Inputs)
    requires Aligned(g) && g.status.state == Deprovisioning
    ensures var (s, r) := (g.status, Handle(g, env));
            && r.h.next == FromDeprovisioning(s, env)
            && (r.h.next != Deprovisioning && DeprovisionAnswer(s, env).Complete() ==>
                  && r.h.status.deployed == Deployment(Image("", "", "", None, None), None)
                  && Forgotten(s.settings, r.h.status.settings) && r.h.status.health.errorCount == 0)
  {
    hide Deprovision, DeprovisionAnswer, Forgotten;
    DeprovisionReports(Log(g, HandlerRun(Deprovisioning)), env);
  }

  /** A host leaves Deprovisioning when the provisioner is done, adopting first what is on record; then nothing is on
      record any more and only the hardware volumes are left of the settings. A deletion gives up on the fourth failure,
      and at once when the host is not registered and cannot be for want of credentials. */
  lemma DeprovisioningDecides(s: Status, finalizer: bool, env: Inputs)
    requires Sane(Start(s, finalizer), env) && s.state == Deprovisioning && HasRoom(env)
    requires HandlerRun(Deprovisioning) in ReconcileState(s, finalizer, env).h.trace
    ensures var after := ReconcileState(s, finalizer, env).h.status;
            && after.state == FromDeprovisioning(s, env)
            && (after.state != Deprovisioning && DeprovisionAnswer(s, env).Complete() ==>
                  && after.deployed == Deployment(Image("", "", "", None, None), None)
                  && Forgotten(s.settings, after.settings) && after.health.errorCount == 0)
  {
    hide ReconcileState, Handle, HealthInv, Forgotten;
    var g := HandlerGets(s, finalizer, env);
    DeprovisioningNext(g, env);
  }

  // ----- deleting -----

  /** Where a host goes that is being powered off before it is deleted. */
  function FromPoweringOff(s: Status, env: Inputs): State {
    var answer := env.answers.powerChange;
    if env.spec.disablePowerOff || answer.Complete() then Deleting
    else if answer.Error? then if answer.needsRegistration && !env.haveCreds then Deleting else PoweringOffBeforeDelete
    else if answer.message != NoMessage && s.health.errorCount >= 3 then Deleting
    else PoweringOffBeforeDelete
  }

  lemma PoweringOffNext(g: Hsm, env: Inputs)
    requires Aligned(g) && g.status.state == PoweringOffBeforeDelete
    ensures var (s, r) := (g.status, Handle(g, env));
            && r.h.next == FromPoweringOff(s, env)
            && (env.spec.disablePowerOff || env.answers.powerChange.Complete() ==>
                  !r.h.status.poweredOn && r.h.status.health.errorCount == 0)
  {
  }

  /** Powering off before deletion ends when power is off or may not be turned off, on the fourth failure, and at once
      when the host is not registered and cannot be for want of credentials. */
  lemma PoweringOffDecides(s: Status, finalizer: bool, env: Inputs)
    requires Sane(Start(s, finalizer), env) && s.state == PoweringOffBeforeDelete && HasRoom(env)
    requires HandlerRun(PoweringOffBeforeDelete) in ReconcileState(s, finalizer, env).h.trace
    ensures var after := ReconcileState(s, finalizer, env).h.status;
            && after.state == FromPoweringOff(s, env)
            && (env.spec.disablePowerOff || env.answers.powerChange.Complete() ==>
                  !after.poweredOn && after.health.errorCount == 0)
  {
    hide ReconcileState, Handle, HealthInv;
    var g := HandlerGets(s, finalizer, env);
    PoweringOffNext(g, env);
  }

  /** The finalizer goes once the node is gone, the secrets are released and the host object is written without it, and
      not before. */
  lemma DeletingDecides(s: Status, finalizer: bool, env: Inputs)
    requires Sane(Start(s, finalizer), env) && s.state == Deleting && HasRoom(env)
    requires HandlerRun(Deleting) in ReconcileState(s, finalizer, env).h.trace
    ensures var (m, a) := (ReconcileState(s, finalizer, env), env.answers);
            && m.h.status.state == Deleting
            && (m.h.finalizer <==>
                  finalizer && !(a.delete.Result? && !a.delete.dirty && a.secretsReleased && a.hostUpdated))
            && (m.result.DeleteComplete? <==> !m.h.finalizer)
  {
    hide ReconcileState, Handle, HealthInv;
    var g := HandlerGets(s, finalizer, env);
    DeletingNext(g, env);
  }

  lemma DeletingNext(g: Hsm, env: Inputs)
    requires Aligned(g) && g.status.state == Deleting
    ensures var (r, a) := (Handle(g, env), env.answers);
            && r.h.next == Deleting
            && (r.h.finalizer <==>
                  g.finalizer && !(a.delete.Result? && !a.delete.dirty && a.secretsReleased && a.hostUpdated))
            && (r.result.DeleteComplete? <==> !r.h.finalizer)
  {
  }

  /** A deletion request takes a host that is neither detached nor delayed where the deletion has to begin: nowhere if
      it was begun, unless registration failed too often; to deprovisioning if something may be on its disks; and
      otherwise to powering off, if it was ever registered. */
  lemma DeletionBegins(s: Status, finalizer: bool, env: Inputs)
    requires Sane(Start(s, finalizer), env) && env.meta.deleting && HasRoom(env)
    requires s.health.op !in {Delayed, Detached}
    requires NeedsCapacity(s.state) ==> env.answers.capacityBefore == Capacity(true)
    ensures var to := ReconcileState(s, finalizer, env).h.status.state;
            && (s.state in {NoState, Unmanaged, Registering} ==> to == Deleting)
            && (s.state in {Provisioning, Provisioned} ==> to == Deprovisioning)
            && (s.state in {Deprovisioning, PoweringOffBeforeDelete} ==>
                  s.health.errorType == RegistrationError && s.health.errorCount > 3 ==> to == Deleting)
            && (s.state in {Inspecting, MatchProfile, Preparing, Ready, Available, ExternallyProvisioned} ==>
                  to == PoweringOffBeforeDelete)
            && (s.state == Deleting ==> to == Deleting)
  {
    hide Deferred, AttemptAttached, CheckDetachedHost, HealthInv, Redeploys, Follows, Attempted;
    var h := Start(s, finalizer);
    AttemptAttempted(h, env);
    if s.state == Deleting {
      DeletingStays(s, finalizer, env);
    }
    Gets(Attempt(h, env), s.state, env);
  }

  lemma DeletingStays(s: Status, finalizer: bool, env: Inputs)
    requires Sane(Start(s, finalizer), env) && env.meta.deleting && s.state == Deleting
    ensures Attempt(Start(s, finalizer), env).h.next == Deleting
  {
    hide Attempt, HealthInv, Redeploys;
    AttemptAttempted(Start(s, finalizer), env);
  }

  // ----- preparing -----

  /** A state of older versions: the profile is matched on registration, and preparing begins at once. */
  lemma MatchProfileDecides(s: Status, finalizer: bool, env: Inputs)
    requires Sane(Start(s, finalizer), env) && s.state == MatchProfile && HasRoom(env)
    requires HandlerRun(MatchProfile) in ReconcileState(s, finalizer, env).h.trace
    ensures var after := ReconcileState(s, finalizer, env).h.status;
            after.state == Preparing && after.health == s.health.(errorCount := 0)
  {
    hide ReconcileState, Handle, HealthInv;
    var g := HandlerGets(s, finalizer, env);
    MatchProfileNext(g, env);
  }

  lemma MatchProfileNext(g: Hsm, env: Inputs)
    requires g.status.state == MatchProfile
    ensures Handle(g, env).h.next == Preparing && Handle(g, env).h.status == SetErrorCount(g.status, 0)
  {
  }

  /** What the provisioner answers when it is asked to prepare the host: after a failure it forgets what was done to the
      volumes, and starts again. */
  function CleaningAnswer(s: Status, env: Inputs): Preparation
    requires HintsKnown(s, env) && env.answers.hfs.Pending? && env.answers.hfc.Pending?
  {
    AppliedMeansFixpoint(s, env);
    var retry := s.health.errorType == PreparationError;
    Prepare(env.answers.node,
            PrepareData(Save(SourceFor(env, s), s.settings).raid, if retry then None else s.settings.raid),
            retry || !SettingsApplied(s, env) || env.answers.hfs.changes || env.answers.hfc.changes, retry)
  }

  /** The firmware components were updated but this could not be recorded. */
  predicate UpdatesLost(env: Inputs) {
    env.answers.hfc == Pending(true) && !env.answers.hfcSaved
  }

  /** What preparing reports and leaves of the settings, by the provisioner's answer: once cleaning has started those of
      the spec are on record, and after a failure to apply new ones all are forgotten but the hardware volumes. */
  predicate ReportsCleaning(s: Status, env: Inputs, r: Step, p: Preparation, unapplied: bool, target: HostSettings) {
    var after := r.h.status;
    if p.answer.Error? then r.result == ActionError(p.answer.needsRegistration) && after == s
    else if p.answer.message != NoMessage then
      && (if unapplied then Forgotten(s.settings, after.settings) else after.settings == s.settings)
      && (if UpdatesLost(env) then r.result == ActionError(false)
          else
            && r.result.ActionFailed?
            && after.health == Health(ErrorStatus, PreparationError, p.answer.message, s.health.errorCount + 1))
    else if p.started && UpdatesLost(env) then r.result == ActionError(false) && after == s
    else
      && (r.result == ActionComplete <==> !p.answer.dirty)
      && after.settings == (if p.started && unapplied then target else s.settings)
      && (p.started ==> after.health == Health(OK, NoError, NoMessage, s.health.errorCount))
      && (p.answer.dirty && after != s ==> r.result.ActionUpdate?)
  }

  predicate Prepares(s: Status, env: Inputs, r: Step) {
    if !HintsKnown(s, env) then r.result == ActionError(false) && r.h.status == s
    else if env.answers.hfs.NotReady? || env.answers.hfc.NotReady? then
      r.result == ActionContinue(60) && r.h.status == s
    else
      AppliedMeansFixpoint(s, env);
      var unapplied := !SettingsApplied(s, env) || s.health.errorType == PreparationError;
      ReportsCleaning(s, env, r, CleaningAnswer(s, env), unapplied, Save(SourceFor(env, s), s.settings))
  }

  lemma PrepareReports(h: Hsm, env: Inputs)
    ensures Prepares(h.status, env, PrepareHost(h, env)) && PrepareHost(h, env).h.next == h.next
  {
    hide Prepare, Save, WantedHints, Clear, HintsKnown, SettingsApplied, Prepared, ReportsCleaning;
    AppliedMeansFixpoint(h.status, env);
    if HintsKnown(h.status, env) && env.answers.hfs.Pending? && env.answers.hfc.Pending? {
      var unapplied := !SettingsApplied(h.status, env) || h.status.health.errorType == PreparationError;
      var target := Save(SourceFor(env, h.status), h.status.settings);
      CleaningReports(h, env, target, unapplied, CleaningAnswer(h.status, env));
    }
  }

  lemma CleaningReports(h: Hsm, env: Inputs, target: HostSettings, unapplied: bool, p: Preparation)
    requires env.answers.hfc.Pending?
    ensures var r := Prepared(h, env, target, unapplied, p);
            ReportsCleaning(h.status, env, r, p, unapplied, target) && r.h.next == h.next
  {
    hide Clear;
    ClearForgets(h.status.settings);
  }

  lemma ClearForgets(settings: HostSettings)
    ensures Forgotten(settings, Clear(settings))
  {
  }

  /** Whether preparing is done: the hints are known, the firmware objects are ready and the provisioner is done, with
      nothing lost. */
  predicate DonePreparing(s: Status, env: Inputs) {
    && HintsKnown(s, env) && env.answers.hfs.Pending? && env.answers.hfc.Pending?
    && CleaningAnswer(s, env).answer.Complete() && !(CleaningAnswer(s, env).started && UpdatesLost(env))
  }

  /** The settings that preparing leaves. */
  function SettingsAfter(s: Status, env: Inputs): HostSettings {
    if !HintsKnown(s, env) || env.answers.hfs.NotReady? || env.answers.hfc.NotReady? then s.settings
    else
      var p := CleaningAnswer(s, env);
      var unapplied := !SettingsApplied(s, env) || s.health.errorType == PreparationError;
      AppliedMeansFixpoint(s, env);
      if p.answer.Error? || !unapplied then s.settings
      else if p.answer.message != NoMessage then Clear(s.settings)
      else if p.started && !UpdatesLost(env) then Save(SourceFor(env, s), s.settings)
      else s.settings
  }

  lemma PreparingNext(g: Hsm, env: Inputs)
    requires g.status.state == g.next == Preparing
    ensures var r := Handle(g, env);
            && r.h.next == (if DonePreparing(g.status, env) then Available else Preparing)
            && (r.h.next == Available ==> r.h.status.health.errorCount == 0)
            && r.h.status.settings == SettingsAfter(g.status, env)
  {
    hide PrepareHost, Save, Clear, HintsKnown, SettingsApplied, CleaningAnswer, WantedHints, Forgotten;
    var h := Log(g, HandlerRun(Preparing));
    PrepareReports(h, env);
    PrepareKeepsSettings(h, env);
  }

  lemma PrepareKeepsSettings(h: Hsm, env: Inputs)
    ensures PrepareHost(h, env).h.status.settings == SettingsAfter(h.status, env)
  {
    hide Prepare, Save, WantedHints, Clear, HintsKnown, SettingsApplied;
    AppliedMeansFixpoint(h.status, env);
  }

  lemma PreparingReads(a: Status, b: Status, env: Inputs)
    requires a == b.(tried := a.tried, id := a.id, good := a.good)
    ensures DonePreparing(a, env) == DonePreparing(b, env) && SettingsAfter(a, env) == SettingsAfter(b, env)
  {
    hide Prepare, Save, Clear;
  }

  /** A host leaves Preparing when the provisioner is done with it. The settings of the spec go on record when cleaning
      has started with them, and a failure to apply them leaves the hardware volumes only. */
  lemma PreparingDecides(s: Status, finalizer: bool, env: Inputs)
    requires Sane(Start(s, finalizer), env) && s.state == Preparing && HasRoom(env)
    requires HandlerRun(Preparing) in ReconcileState(s, finalizer, env).h.trace
    ensures var after := ReconcileState(s, finalizer, env).h.status;
            && after.state == (if DonePreparing(s, env) then Available else Preparing)
            && (after.state == Available ==> after.health.errorCount == 0)
            && after.settings == SettingsAfter(s, env)
  {
    hide ReconcileState, Handle, HealthInv, DonePreparing, SettingsAfter;
    var g := HandlerGets(s, finalizer, env);
    PreparingNext(g, env);
    PreparingReads(g.status, s, env);
  }
}
