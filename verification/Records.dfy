/** What the fields of a status say: where the credentials, the node ID, the profile, the boot mode, the power and the
    operational status come from. */
module Records {
  import opened HostTypes
  import opened ActionResults
  import opened Settings
  import opened Actions
  import opened StateMachine
  import opened Machine
  import opened Pass
  import opened Decisions
  import opened PowerOn
  import DataImages

  // ----- registration -----

  /** Credentials match a secret if and only if they name it, its namespace and its very version. */
  lemma MatchMeansSame(creds: Credentials, secret: Secret)
    ensures Match(creds, secret) <==>
            creds == Credentials(Some(SecretRef(secret.name, secret.namespace)), secret.resourceVersion)
    ensures Match(RecordCredentials(secret), secret)
  {
  }

  /** The profile that a host is given: the one on record for ever, else the one that the spec names, else the one for
      its kind of BMC. */
  predicate GivenProfile(s: Status, env: Inputs, profile: string) {
    if s.hardwareProfile != "" then profile == s.hardwareProfile
    else profile == (if env.spec.hardwareProfile != "" then env.spec.hardwareProfile else env.fallbackProfile)
  }

  /** The node is registered, the profile known and on record with its hints and, unless the host is being deleted,
      every object that belongs to it created. */
  predicate Succeeded(s: Status, env: Inputs, after: Status) {
    var a := env.answers.register;
    && !a.formatsError && a.networkDataError.None? && a.register.Registered? && a.register.result.Complete()
    && (a.resourcesError ==> env.meta.deleting)
    && GivenProfile(s, env, after.hardwareProfile) && after.hardwareProfile in env.profiles
    && after.settings.rootDeviceHints ==
       (if env.spec.rootDeviceHints.Some? then env.spec.rootDeviceHints else Some(env.profiles[after.hardwareProfile]))
  }

  /** What a registration that is done relies on and leaves. */
  lemma SuccessNeedsResources(h: Hsm, env: Inputs)
    requires RegisterHost(h, env).result in {NoAction, ActionComplete}
    ensures Succeeded(h.status, env, RegisterHost(h, env).h.status)
  {
    hide FindImage;
    SuccessOfNode(h, env, false);
    SuccessOfNode(NoteTried(h, env), env, true);
  }

  lemma SuccessOfNode(h: Hsm, env: Inputs, credsChanged: bool)
    ensures var r := FindImage(h, env, credsChanged);
            r.result in {NoAction, ActionComplete} ==> Succeeded(h.status, env, r.h.status)
  {
    hide RecordID, MatchProfileAndCommit;
    var id := if env.answers.register.register.Registered? then env.answers.register.register.id else "";
    RecordIDKeepsProfile(h.status, id);
    SuccessRecordsProfile(Log(h, RegisterCalled).(status := RecordID(h.status, id)), env);
  }

  lemma RecordIDKeepsProfile(s: Status, id: string)
    ensures RecordID(s, id).hardwareProfile == s.hardwareProfile
  {
  }

  lemma SuccessRecordsProfile(h: Hsm, env: Inputs)
    ensures var (r, a) := (MatchProfileAndCommit(h, env), env.answers.register);
            r.result in {NoAction, ActionComplete} ==>
              && (a.resourcesError ==> env.meta.deleting)
              && GivenProfile(h.status, env, r.h.status.hardwareProfile) && r.h.status.hardwareProfile in env.profiles
              && r.h.status.settings.rootDeviceHints ==
                 (if env.spec.rootDeviceHints.Some? then env.spec.rootDeviceHints
                  else Some(env.profiles[r.h.status.hardwareProfile]))
  {
    hide Match;
  }

  /** Registering a node records its ID; a node that is new to a host being prepared is prepared from scratch. The
      profile comes with its hints. */
  predicate RecordsNode(s: Status, env: Inputs, after: Status) {
    var id := if env.answers.register.register.Registered? then env.answers.register.register.id else "";
    var isNew := id != "" && id != s.id && s.state == Preparing;
    && after.id == (if id != "" then id else s.id)
    && (if isNew then
          && after.settings.firmware.None?
          && (after.settings.raid.Some? <==> s.settings.raid.Some?)
          && (after.settings.raid.Some? ==>
                after.settings.raid.value == RAIDConfig(s.settings.raid.value.hardware, None))
        else after.settings.firmware == s.settings.firmware && after.settings.raid == s.settings.raid)
    && (after.hardwareProfile == s.hardwareProfile || GivenProfile(s, env, after.hardwareProfile))
    && after.tried == Credentials(Some(SecretRef(env.secret.name, env.secret.namespace)), env.secret.resourceVersion)
  }

  lemma CommitRecords(h: Hsm, env: Inputs)
    ensures var after := MatchProfileAndCommit(h, env).h.status;
            && after.id == h.status.id && after.tried == h.status.tried
            && after.settings.firmware == h.status.settings.firmware && after.settings.raid == h.status.settings.raid
            && (after.hardwareProfile == h.status.hardwareProfile || GivenProfile(h.status, env, after.hardwareProfile))
  {
    hide WantedHints;
  }

  lemma NodeRecorded(h: Hsm, env: Inputs, wantsImage: bool, credsChanged: bool)
    requires env.answers.register.register.Registered? && env.answers.register.register.result.Result?
    requires env.answers.register.register.result.message == NoMessage
    requires h.status.tried == RecordCredentials(env.secret)
    ensures RecordsNode(h.status, env, RegisterNode(h, env, wantsImage, credsChanged).h.status)
  {
    hide MatchProfileAndCommit;
    CommitRecords(h.(status := RecordID(h.status, env.answers.register.register.id)), env);
  }

  lemma RegistrationRecords(h: Hsm, env: Inputs)
    requires RegisterCalled !in h.trace && RegisterCalled in RegisterHost(h, env).h.trace
    requires env.answers.register.register.Registered? && env.answers.register.register.result.Result?
    requires env.answers.register.register.result.message == NoMessage
    ensures RecordsNode(h.status, env, RegisterHost(h, env).h.status)
  {
    hide RegisterNode, Match;
    MatchMeansSame(h.status.tried, env.secret);
    var wantsImage := env.answers.register.wantsImage && UsesImage(env.spec, h.status);
    var credsChanged := !Match(h.status.tried, env.secret);
    var noted := if credsChanged then NoteTried(h, env) else h;
    NodeRecorded(Log(noted, RegisterCalled), env, wantsImage, credsChanged);
  }

  // ----- boot mode -----

  /** The boot mode is that of the spec, or UEFI, whenever registration, inspection or provisioning begins, and
      otherwise stays as it is. */
  lemma BootModeIsRecorded(s: Status, finalizer: bool, env: Inputs)
    requires Sane(Start(s, finalizer), env)
    ensures var after := ReconcileState(s, finalizer, env).h.status;
            after.bootMode ==
            if after.state != s.state && after.state in {Registering, Inspecting, Provisioning} then
              if env.spec.bootMode == Unset then UEFI else env.spec.bootMode
            else s.bootMode
  {
    hide Attempt, Deferred, HealthInv, Redeploys, Follows;
    var h := Start(s, finalizer);
    AttemptAttempted(h, env);
    DeferredUpdate(h, Attempt(h, env), env);
    DeferredRecordsBootMode(Attempt(h, env), s.state, env);
  }

  lemma DeferredRecordsBootMode(a: Step, initial: State, env: Inputs)
    requires a.h.status.state == initial
    ensures var after := Deferred(a, initial, env).h.status;
            after.bootMode ==
            if after.state != initial && after.state in {Registering, Inspecting, Provisioning} then
              if env.spec.bootMode == Unset then UEFI else env.spec.bootMode
            else a.h.status.bootMode
  {
    hide Enter;
    if a.h.next != initial {
      var c := if NeedsCapacity(a.h.next) then EnsureCapacity(a.h, env.answers.capacityAfter) else Step(a.h, NoAction);
      EnterRecordsBootMode(c.h, initial, env);
    }
  }

  lemma EnterRecordsBootMode(h: Hsm, initial: State, env: Inputs)
    ensures var after := Enter(h, initial, env).status;
            && after.state == h.next
            && after.bootMode == if h.next in {Registering, Inspecting, Provisioning} then
                                   if env.spec.bootMode == Unset then UEFI else env.spec.bootMode
                                 else h.status.bootMode
  {
    hide EndMetric, BeginMetric;
    MetricsTurn(h, initial, h.next, env.clock.transition);
    EndTouchesMetrics(h, initial, env.clock.transition);
  }

  // ----- delayed and detached hosts -----

  /** A delayed host goes on with the next pass that has capacity, and then shows no error. */
  lemma DelayedHostResumes(s: Status, finalizer: bool, env: Inputs)
    requires s.health.op == Delayed && env.answers.capacityBefore == Capacity(true)
    ensures var m := ReconcileState(s, finalizer, env);
            m.result.ActionUpdate? && m.h.status == s.(health := Health(OK, NoError, NoMessage, s.health.errorCount))
  {
  }

  /** Detaching is up to the annotation: at will in the states in which nothing is done to the host, and by force in any
      state but Deleting. */
  predicate Detaches(s: Status, env: Inputs) {
    match env.meta.detached
    case NotDetached => false
    case Unparsable => s.state in {Provisioned, ExternallyProvisioned, Ready, Available}
    case Arguments(_, force) =>
      s.state in {Provisioned, ExternallyProvisioned, Ready, Available} || (force && s.state != Deleting)
  }

  /** What detaching reports: a failure is recorded and counted, while detaching goes on none is shown, and once it is
      done earlier failures are forgotten. */
  predicate ReportsDetaching(s: Status, env: Inputs, r: Step) {
    var (a, after, failed) := (env.answers.detach, r.h.status.health, s.health.errorType == DetachError);
    && r.h.status == s.(health := after)
    && (a.Error? ==> r.result == ActionError(a.needsRegistration) && after == s.health)
    && (a.Result? && a.message != NoMessage ==>
          && r.result == ActionFailed(DetachError, s.health.errorCount + 1)
          && after == Health(ErrorStatus, DetachError, a.message, s.health.errorCount + 1))
    && (a.Result? && a.message == NoMessage && a.dirty ==>
          after == if failed then Health(OK, NoError, NoMessage, s.health.errorCount) else s.health)
    && (a.Complete() ==>
          after == if failed then Health(Detached, NoError, NoMessage, 0) else s.health.(op := Detached))
  }

  lemma DetachReports(h: Hsm, env: Inputs)
    ensures ReportsDetaching(h.status, env, DetachHost(h, env)) && DetachHost(h, env).h.next == h.next
    ensures DetachHost(h, env).result != NoAction
  {
  }

  /** A host that is neither delayed nor being deleted is detached when the annotation asks for it and the provisioner
      is done with it. */
  lemma DetachingDecides(s: Status, finalizer: bool, env: Inputs)
    requires Detaches(s, env) && s.health.op != Delayed && !env.meta.deleting
    requires NeedsCapacity(s.state) ==> env.answers.capacityBefore == Capacity(true)
    ensures ReportsDetaching(s, env, ReconcileState(s, finalizer, env))
  {
    hide DetachHost, ReportsDetaching;
    DetachReports(CheckDelayedHost(Start(s, finalizer), env).h, env);
  }

  /** In Deleting nobody is detached any more, whatever the annotation says. */
  lemma DeletingIsNotDetached(s: Status, finalizer: bool, env: Inputs)
    requires s.state == Deleting && s.health.op != Delayed
    ensures var health := ReconcileState(s, finalizer, env).h.status.health;
            health.op != Detached && (health.errorType == DetachError ==> s.health.errorType == DetachError)
  {
    hide DetachHost;
  }

  // ----- servicing -----

  /** The policy allows something to be serviced on reboot that is not yet as the spec has it. */
  predicate ToService(s: Status, env: Inputs) {
    var (policy, a) := (env.answers.policy, env.answers);
    && policy.Policy?
    && (|| (policy.settingsOnReboot && (s.settings.firmware != env.spec.firmware || a.hfs == Pending(true)))
        || (policy.updatesOnReboot && a.hfc == Pending(true)))
  }

  /** Nothing stands between the host and servicing: its power is known and not to be observed or cleared first, the
      gate is open, and policy and firmware objects can be read. */
  predicate Serviceable(s: Status, env: Inputs) {
    var a := env.answers;
    && (a.power.PowerUnknown? || a.power == Power(s.poweredOn))
    && GateVerdict(env) == DataImages.Pass && !(!s.poweredOn && env.meta.suffixlessReboot)
    && a.policy.Policy?
    && (a.policy.settingsOnReboot ==> a.hfs.Pending?) && (a.policy.updatesOnReboot ==> a.hfc.Pending?)
  }

  /** Servicing goes on until it succeeds, once it has begun; and it begins for provisioned hosts before they are
      powered on. */
  predicate ServicesHost(s: Status, env: Inputs) {
    || s.health.op == Servicing || s.health.errorType == ServicingError
    || (&& s.state in {Provisioned, ExternallyProvisioned} && env.spec.online && !s.poweredOn && ToService(s, env))
  }

  /** Firmware updates were to be serviced, and this cannot be recorded. */
  predicate ServiceLost(env: Inputs) {
    && env.answers.policy.Policy? && env.answers.policy.updatesOnReboot
    && env.answers.hfc == Pending(true) && !env.answers.hfcSaved
  }

  /** What is left after a round of servicing. */
  predicate ReportsService(s: Status, env: Inputs, r: Step) {
    var (a, after) := (env.answers, r.h.status);
    if s.health.op != Servicing then r.result.ActionUpdate? && after == s.(health := s.health.(op := Servicing))
    else if a.service.Error? then r.result.ActionError? && after == s
    else if a.service.message != NoMessage then
      && after.settings == s.settings.(firmware := None)
      && (if ServiceLost(env) then r.result == ActionError(false)
          else after.health == Health(ErrorStatus, ServicingError, a.service.message, s.health.errorCount + 1))
    else
      && after.settings == s.settings.(firmware := if a.serviceStarted && a.policy.Policy? && a.policy.settingsOnReboot
                                                   then env.spec.firmware else s.settings.firmware)
      && after.health == Health(after.health.op, NoError, NoMessage, s.health.errorCount)
      && (r.result == ActionError(false) <==> a.serviceStarted && ServiceLost(env))
      && (after.health.op == OK || (after.health.op == Servicing
                                    && (a.service.dirty || r.result.ActionError? || after.settings != s.settings
                                        || HasError(s))))
  }

  lemma ServiceReports(h: Hsm, env: Inputs)
    requires Serviceable(h.status, env)
    ensures var (policy, s) := (env.answers.policy, h.status);
            var r := Service(h, env, policy.settingsOnReboot, policy.updatesOnReboot);
            if s.health.op == Servicing || s.health.errorType == ServicingError || ToService(s, env)
            then r.result != NoAction && ReportsService(s, env, r) && r.h.trace == h.trace
            else r == Step(h, NoAction)
  {
    hide GateVerdict, Serviced, ReportsService;
    var (policy, s) := (env.answers.policy, h.status);
    if s.health.op == Servicing {
      ServicedReports(h, env, policy.settingsOnReboot && s.settings.firmware != env.spec.firmware,
                      policy.updatesOnReboot && env.answers.hfc == Pending(true));
    } else {
      ServicingBegins(h, env);
    }
  }

  lemma ServicingBegins(h: Hsm, env: Inputs)
    requires h.status.health.op != Servicing
    ensures ReportsService(h.status, env, Step(h.(status := SetOp(h.status, Servicing)), ActionUpdate(0)))
  {
  }

  lemma ServicedReports(h: Hsm, env: Inputs, fwDirty: bool, hfcDirty: bool)
    requires env.answers.policy.Policy? && h.status.health.op == Servicing
    requires fwDirty <==> env.answers.policy.settingsOnReboot && h.status.settings.firmware != env.spec.firmware
    requires hfcDirty <==> env.answers.policy.updatesOnReboot && env.answers.hfc == Pending(true)
    ensures var r := Serviced(h, env, fwDirty, hfcDirty);
            r.result != NoAction && ReportsService(h.status, env, r) && r.h.trace == h.trace
  {
  }

  /** A host that is watched over is serviced exactly when there is something to service, and is powered on or off only
      when there is not. */
  lemma ManagePowerServices(h: Hsm, env: Inputs)
    requires Serviceable(h.status, env)
    ensures var r := ManagePower(h, env);
            if ServicesHost(h.status, env) then ReportsService(h.status, env, r) && r.h.trace == h.trace
            else r == ChangePower(h, env)
  {
    hide GateVerdict, Service, ChangePower, ReportsService;
    ServiceReports(h, env);
  }

  lemma PowerOnServiced(h: Hsm, env: Inputs)
    requires IsProvisioned(h.status.state) && PowerOnCalled !in h.trace && PowerOnCalled in ManagePower(h, env).h.trace
    ensures env.answers.policy.Policy? && !ToService(h.status, env)
    ensures h.status.health.op != Servicing && h.status.health.errorType != ServicingError
  {
    hide GateVerdict, Service, ChangePower, ToService;
    if PowerOnCalled in ChangePower(h, env).h.trace {
      ChangePowerCalledFor(h, env, PowerOnCalled);
    }
    if env.answers.policy.Policy? {
      ServicePowersNothing(h, env, env.answers.policy.settingsOnReboot, env.answers.policy.updatesOnReboot);
      NothingToService(h, env);
    }
  }

  lemma NothingToService(h: Hsm, env: Inputs)
    requires env.answers.policy.Policy?
    requires Service(h, env, env.answers.policy.settingsOnReboot, env.answers.policy.updatesOnReboot).result == NoAction
    ensures !ToService(h.status, env)
    ensures h.status.health.op != Servicing && h.status.health.errorType != ServicingError
  {
    hide Serviced;
    ServicedActs(h, env);
  }

  lemma ServicedActs(h: Hsm, env: Inputs)
    ensures forall fwDirty, hfcDirty :: Serviced(h, env, fwDirty, hfcDirty).result != NoAction
  {
  }

  /** A provisioned host is powered on only when nothing is being serviced or left to service. */
  lemma PowerOnMeansServiced(s: Status, finalizer: bool, env: Inputs)
    requires Sane(Start(s, finalizer), env) && IsProvisioned(s.state)
    requires PowerOnCalled in ReconcileState(s, finalizer, env).h.trace
    ensures env.answers.policy.Policy? && !ToService(s, env)
    ensures s.health.op != Servicing && s.health.errorType != ServicingError
  {
    hide ReconcileState, Handle, HealthInv, ManagePower;
    var h := PassAsks(s, finalizer, env, PowerOnCalled);
    var g := HandlerAsks(h, env, PowerOnCalled);
    HandlerServiced(g, env);
  }

  lemma HandlerServiced(g: Hsm, env: Inputs)
    requires IsProvisioned(g.status.state) && PowerOnCalled !in g.trace && PowerOnCalled in Handle(g, env).h.trace
    ensures env.answers.policy.Policy? && !ToService(g.status, env)
    ensures g.status.health.op != Servicing && g.status.health.errorType != ServicingError
  {
    hide ManagePower, Cancelled, ToService;
    PowerOnServicedIn(Log(g, HandlerRun(g.status.state)), env);
  }

  lemma PowerOnServicedIn(h: Hsm, env: Inputs)
    requires IsProvisioned(h.status.state) && PowerOnCalled !in h.trace
    ensures PowerOnCalled in ManagePower(h, env).h.trace ==>
              && env.answers.policy.Policy? && !ToService(h.status, env)
              && h.status.health.op != Servicing && h.status.health.errorType != ServicingError
  {
    hide ManagePower, ToService;
    if PowerOnCalled in ManagePower(h, env).h.trace {
      PowerOnServiced(h, env);
    }
  }

  // ----- power -----

  /** Power that is not as recorded is recorded and saved before anything else is done, and a failure to switch it is
      then over; power that cannot be observed is an error. */
  lemma PowerIsObserved(h: Hsm, env: Inputs)
    ensures env.answers.power.PowerError? ==> ManagePower(h, env) == Step(h, ActionError(false))
    ensures env.answers.power == Power(!h.status.poweredOn) ==>
            var (s, r) := (h.status, ManagePower(h, env));
            && r.result.ActionUpdate? && r.h.trace == h.trace && r.h.status.poweredOn == !s.poweredOn
            && r.h.status == s.(poweredOn := !s.poweredOn, health := r.h.status.health)
            && r.h.status.health ==
               (if s.health.op == ErrorStatus && s.health.errorType == PowerManagementError
                then Health(OK, NoError, NoMessage, s.health.errorCount) else s.health)
  {
  }

  /** A call that switches power reports a failure with its message and shows no error while it goes on; once it is
      done earlier failures are forgotten. A host that may not be powered off has been rebooted by then, which serves
      the reboot annotation. */
  lemma SwitchingReports(h: Hsm, env: Inputs)
    requires ChangePower(h, env).h.trace != h.trace
    ensures var (s, r, a) := (h.status, ChangePower(h, env), env.answers.powerChange);
            && (a.Error? ==> r.result == ActionError(a.needsRegistration) && r.h.status == s)
            && (a.Result? ==>
                  if env.spec.disablePowerOff && env.meta.suffixlessReboot then
                    if env.answers.hostUpdated then r.h.status == h.server && AnnotationsCleared in r.h.trace
                    else r.result == ActionError(false)
                  else if a.message != NoMessage then
                    r.h.status ==
                    s.(health := Health(ErrorStatus, PowerManagementError, a.message, s.health.errorCount + 1))
                  else if a.dirty then r.h.status == s.(health := Health(OK, NoError, NoMessage, s.health.errorCount))
                  else
                    && r.h.status == s.(poweredOn := env.spec.online, health := s.health.(errorCount := 0))
                    && r.result.ActionUpdate?)
  {
    hide DesiredOn;
  }

  // ----- rounds -----

  /** Credentials that cannot be read are a failure to register, which changes nothing else; a host that needs none, or
      is being deleted, goes on without. */
  lemma UnreadableCredentials(s: Status, r: Round, message: Message)
    requires r.credentialsError == Some(message) && !r.interrupted
    ensures if s.state !in {NoState, Unmanaged} && !r.env.meta.deleting then
              && (r.saveOk ==> Reconcile(s, r).status ==
                               s.(health := Health(ErrorStatus, RegistrationError, message, s.health.errorCount + 1)))
              && (!r.saveOk ==> Reconcile(s, r).status == s)
            else Reconcile(s, r).trace == ReconcileState(s, r.finalizer, r.env).h.trace
  {
    hide ReconcileState;
  }

  /** A round saves what its pass has made of the host if that reports a change, or if conditions have changed; never
      after an error; and what is not saved is as if nothing had happened. */
  lemma RoundSaves(s: Status, r: Round)
    requires RunsMachine(s, r)
    ensures var (m, after) := (ReconcileState(s, r.finalizer, r.env), Reconcile(s, r));
            && after.status == (if after.saved then m.h.status else s)
            && (after.saved <==>
                  r.saveOk && (m.result.ActionUpdate? || m.result.ActionComplete? || m.result.ActionFailed?
                               || m.result.ActionDelayed? || (r.conditionsChanged && !m.result.ActionError?)))
  {
    hide ReconcileState;
  }
}
