/** The procedures of the controller: they update the status of one host in place, as the source does, and each is
    proved to compute the step that the functions of Actions and StateMachine describe. */
module Controller {
  import opened HostTypes
  import opened ActionResults
  import opened Settings
  import opened IronicPrepare
  import opened Actions
  import opened StateMachine
  import DataImages

  class HostStateMachine {
    const env: Inputs
    const server: Status
    var status: Status
    var next: State
    var finalizer: bool
    var failures: nat
    var trace: seq<Event>

    /** newHostStateMachine */
    constructor (status: Status, finalizer: bool, env: Inputs)
      ensures this.env == env && Model() == Start(status, finalizer)
    {
      this.env, server, this.status, next := env, status, status, status.state;
      this.finalizer, failures, trace := finalizer, 0, [];
    }

    function Model(): Hsm
      reads this
    {
      Hsm(server, status, next, finalizer, failures, trace)
    }

    method Log(e: Event)
      modifies this`trace
      ensures trace == old(trace) + [e]
    {
      trace := trace + [e];
    }

    // ----- errors -----

    method SetOperationalStatus(op: OperationalStatus) returns (dirty: bool)
      modifies this`status
      ensures status == SetOp(old(status), op)
      ensures dirty <==> status != old(status)
    {
      dirty := status.health.op != op;
      if dirty {
        status := status.(health := status.health.(op := op));
      }
    }

    method ClearErrorWith(op: OperationalStatus) returns (dirty: bool)
      modifies this`status
      ensures status == ClearErrorWithStatus(old(status), op)
      ensures dirty <==> status != old(status)
    {
      dirty := SetOperationalStatus(op);
      if status.health.errorType != NoError {
        status := status.(health := status.health.(errorType := NoError));
        dirty := true;
      }
      if status.health.errorMessage != NoMessage {
        status := status.(health := status.health.(errorMessage := NoMessage));
        dirty := true;
      }
    }

    method SetErrorCounter(errorCount: nat)
      modifies this`status
      ensures status == SetErrorCount(old(status), errorCount)
    {
      status := status.(health := status.health.(errorCount := errorCount));
    }

    method RecordActionFailure(errorType: ErrorType, message: Message) returns (result: ActionResult)
      modifies this`status, this`failures
      ensures Step(Model(), result) == RecordFailure(old(Model()), errorType, message)
    {
      status := status.(health := Health(ErrorStatus, errorType, message, status.health.errorCount + 1));
      failures := failures + 1;
      result := ActionFailed(errorType, status.health.errorCount);
    }

    method RecordActionDelayed() returns (result: ActionResult)
      modifies this`status
      ensures Step(Model(), result) == RecordDelayed(old(Model()))
    {
      var _ := SetOperationalStatus(Delayed);
      result := ActionDelayed;
    }

    /** An action in progress. */
    method Continue(delay: nat) returns (result: ActionResult)
      modifies this`status
      ensures Step(Model(), result) == ContinueClearing(old(Model()), delay)
    {
      result := ActionContinue(delay);
      var cleared := ClearErrorWith(OK);
      if cleared {
        result := ActionUpdate(delay);
      }
    }

    /** Writing the host object: the server's status comes back with it. */
    method Update() returns (ok: bool)
      modifies this`status
      ensures ok == env.answers.hostUpdated && status == if ok then server else old(status)
    {
      ok := env.answers.hostUpdated;
      if ok {
        status := server;
      }
    }

    method ClearAnnotations() returns (result: ActionResult)
      modifies this`status, this`trace
      ensures Step(Model(), result) == UpdateHost(old(Model()), env)
    {
      var ok := Update();
      if !ok {
        return ActionError(false);
      }
      Log(AnnotationsCleared);
      result := ActionContinue(0);
    }

    // ----- metrics -----

    method RecordStateBegin(state: State, now: Time)
      modifies this`status
      ensures status == BeginMetric(old(status), state, now)
    {
      if HasMetric(state) {
        var metric := MetricFor(status.history, state);
        if metric.start == 0 || metric.end != 0 {
          status := status.(history := SetMetric(status.history, state, Metric(now, 0)));
        }
      }
    }

    method RecordStateEnd(state: State, now: Time) returns (changed: bool)
      modifies this`status, this`trace
      ensures Model() == EndMetric(old(Model()), state, now)
      ensures if EndsMetric(old(status), state) then changed else !changed && Model() == old(Model())
    {
      changed := false;
      if HasMetric(state) {
        var metric := MetricFor(status.history, state);
        if metric.start != 0 && metric.end == 0 {
          status := status.(history := SetMetric(status.history, state, metric.(end := now)));
          Log(MetricObserved(state));
          changed := true;
        }
      }
    }

    // ----- registration -----

    method ClearHostProvisioningSettings()
      modifies this`status
      ensures status == old(status).(settings := Clear(old(status).settings))
    {
      var record := new SettingsRecord(status.settings);
      record.ClearHostProvisioningSettings();
      status := status.(settings := record.settings);
    }

    method UpdateHints(source: Source) returns (dirty: bool)
      requires WantedHints(source).Some?
      modifies this`status
      ensures status == old(status).(settings := old(status).settings.(rootDeviceHints := WantedHints(source)))
      ensures dirty <==> status != old(status)
    {
      var record := new SettingsRecord(status.settings);
      var found: bool;
      dirty, found := record.UpdateRootDeviceHints(source);
      status := status.(settings := record.settings);
    }

    method SetProvisionerID(id: string) returns (dirty: bool)
      modifies this`status
      ensures status == RecordID(old(status), id)
      ensures dirty <==> NewID(old(status), id)
    {
      dirty := false;
      if id != "" && status.id != id {
        status := status.(id := id);
        if status.state == Preparing {
          ClearHostProvisioningSettings();
        }
        dirty := true;
      }
    }

    /** matchProfile, for a profile that exists. */
    method MatchHardwareProfile() returns (dirty: bool)
      requires ProfileName(env, status) in env.profiles
      modifies this`status
      ensures dirty <==> NewProfile(env, old(status))
      ensures status == if dirty then RecordProfile(env, old(status)) else old(status)
    {
      var name := ProfileName(env, status);
      var source := SourceOf(env.profiles, env.spec, name);
      dirty := status.hardwareProfile != name;
      if dirty {
        status := status.(hardwareProfile := name);
      }
      var hintsDirty := UpdateHints(source);
      dirty := dirty || hintsDirty;
    }

    /** The end of registerHost: its dirty flag starts over at the profile. */
    method FinishRegistration() returns (result: ActionResult)
      modifies this`status, this`failures
      ensures Step(Model(), result) == MatchProfileAndCommit(old(Model()), env)
    {
      if ProfileName(env, status) !in env.profiles {
        result := RecordActionFailure(RegistrationError, UnknownProfile);
        return;
      }
      var dirty := MatchHardwareProfile();
      if dirty {
        return ActionUpdate(0);
      }
      if !env.meta.deleting && env.answers.register.resourcesError {
        return ActionError(false);
      }
      var registeredNewCreds := !Match(status.good, env.secret);
      if registeredNewCreds {
        status := status.(good := RecordCredentials(env.secret));
        dirty := true;
      }
      if status.health.errorType == RegistrationError || registeredNewCreds {
        dirty := ClearErrorWith(OK);
      }
      result := if dirty then ActionComplete else NoAction;
    }

    method CallRegister(wantsImage: bool, credsChanged: bool) returns (result: ActionResult)
      modifies this`status, this`failures
      ensures Step(Model(), result) == RegisterNode(old(Model()), env, wantsImage, credsChanged)
    {
      match env.answers.register.register {
        case NeedsImage =>
          if !wantsImage {
            return ActionError(false);
          }
          if !env.answers.register.image.ImageFound? {
            return ActionContinue(300);
          }
          result := RecordActionFailure(RegistrationError, ImageNotAcceptable);
        case RegisterError(needsRegistration) => result := ActionError(needsRegistration);
        case Registered(answer, id) =>
          match answer {
            case Error(needsRegistration) => result := ActionError(needsRegistration);
            case Result(notReady, delay, message) =>
              if message != NoMessage {
                result := RecordActionFailure(RegistrationError, message);
                return;
              }
              var dirty := credsChanged;
              var newID := SetProvisionerID(id);
              dirty := dirty || newID;
              if notReady {
                var cleared := ClearErrorWith(OK);
                result := if dirty || cleared then ActionUpdate(delay) else ActionContinue(delay);
                return;
              }
              result := FinishRegistration();
          }
      }
    }

    method Register() returns (result: ActionResult)
      modifies this`status, this`failures, this`trace
      ensures Step(Model(), result) == RegisterHost(old(Model()), env)
    {
      var answers := env.answers.register;
      var credsChanged := !Match(status.tried, env.secret);
      if credsChanged {
        status := status.(tried := RecordCredentials(env.secret));
      }
      if answers.formatsError {
        return ActionError(false);
      }
      var wantsImage := answers.wantsImage && UsesImage(env.spec, status);
      if wantsImage {
        match answers.image {
          case ImageBuildError(message) =>
            result := RecordActionFailure(RegistrationError, message);
            return;
          case ImageLookupError => return ActionError(false);
          case _ =>
        }
      }
      if answers.networkDataError.Some? {
        result := RecordActionFailure(RegistrationError, answers.networkDataError.value);
        return;
      }
      Log(RegisterCalled);
      result := CallRegister(wantsImage, credsChanged);
    }

    // ----- detaching and deleting -----

    method Detach() returns (result: ActionResult)
      modifies this`status, this`failures
      ensures Step(Model(), result) == DetachHost(old(Model()), env)
    {
      match env.answers.detach {
        case Error(needsRegistration) => result := ActionError(needsRegistration);
        case Result(dirty, delay, message) =>
          if message != NoMessage {
            result := RecordActionFailure(DetachError, message);
            return;
          }
          if dirty {
            if status.health.errorType == DetachError {
              result := Continue(delay);
              return;
            }
            return ActionContinue(delay);
          }
          if status.health.errorType == DetachError {
            var _ := ClearErrorWith(OK);
            SetErrorCounter(0);
            var _ := SetOperationalStatus(Detached);
            return ActionUpdate(600);
          }
          var changed := SetOperationalStatus(Detached);
          result := if changed then ActionUpdate(600) else ActionContinue(600);
      }
    }

    method ActionPowerOffBeforeDeleting() returns (result: ActionResult)
      modifies this`status, this`failures, this`trace
      ensures Step(Model(), result) == PowerOffBeforeDeleting(old(Model()), env)
    {
      if env.spec.disablePowerOff {
        return ActionComplete;
      }
      Log(PowerOffCalled);
      match env.answers.powerChange {
        case Error(needsRegistration) => result := ActionError(needsRegistration);
        case Result(dirty, delay, message) =>
          if message != NoMessage {
            result := RecordActionFailure(PowerManagementError, message);
          } else if dirty {
            result := Continue(delay);
          } else {
            result := ActionComplete;
          }
      }
    }

    method ActionDeleting() returns (result: ActionResult)
      modifies this`status, this`finalizer
      ensures Step(Model(), result) == DeleteHost(old(Model()), env)
    {
      if !finalizer {
        return DeleteComplete;
      }
      match env.answers.delete {
        case Error(needsRegistration) => result := ActionError(needsRegistration);
        case Result(dirty, delay, _) =>
          if dirty {
            return ActionContinue(delay);
          }
          if !env.answers.secretsReleased {
            return ActionError(false);
          }
          var updated := Update();
          if !updated {
            return ActionError(false);
          }
          finalizer := false;
          result := DeleteComplete;
      }
    }

    // ----- enrolling, inspecting, preparing -----

    method ActionUnmanaged() returns (result: ActionResult)
      ensures Step(Model(), result) == ManageUnmanaged(Model(), env)
    {
      result := if HasBMCDetails(env.spec) then ActionComplete else ActionContinue(600);
    }

    method ActionInspecting() returns (result: ActionResult)
      modifies this`status, this`failures, this`trace
      ensures Step(Model(), result) == Inspect(old(Model()), env)
    {
      if InspectionDisabled(env.spec, env.meta) {
        return ActionComplete;
      }
      Log(InspectCalled);
      match env.answers.inspect {
        case Error(needsRegistration) => result := ActionError(needsRegistration);
        case Result(dirty, delay, message) =>
          if message != NoMessage {
            result := RecordActionFailure(InspectionError, message);
            return;
          }
          if env.answers.inspectStarted && (env.meta.inspect == InspectRefresh || env.meta.anyReboot) {
            result := ClearAnnotations();
            return;
          }
          if dirty || !env.answers.detailsFound {
            result := Continue(delay);
            return;
          }
          var _ := ClearErrorWith(OK);
          result := if env.answers.hardwareDataSaved then ActionComplete else ActionError(false);
      }
    }

    method ActionPreparing() returns (result: ActionResult)
      modifies this`status, this`failures
      ensures Step(Model(), result) == PrepareHost(old(Model()), env)
    {
      var source := SourceFor(env, status);
      var copy := new SettingsRecord(status.settings);
      var bmhDirty, ok := copy.SaveHostProvisioningSettings(source);
      if !ok {
        return ActionError(false);
      }
      var actual := status.settings.raid;
      var retry := status.health.errorType == PreparationError;
      if retry {
        actual, bmhDirty := None, true;
      }
      if env.answers.hfs.NotReady? || env.answers.hfc.NotReady? {
        return ActionContinue(60);
      }
      var hfcDirty := env.answers.hfc.changes;
      var node := new IronicNode(env.answers.node);
      var answer, started := node.PrepareNode(PrepareData(copy.settings.raid, actual),
                                              bmhDirty || env.answers.hfs.changes || hfcDirty, retry);
      result := AfterPrepare(Preparation(answer, started, node.requests), bmhDirty, copy.settings);
    }

    method AfterPrepare(p: Preparation, bmhWasDirty: bool, target: HostSettings) returns (result: ActionResult)
      requires env.answers.hfc.Pending?
      modifies this`status, this`failures
      ensures Step(Model(), result) == Prepared(old(Model()), env, target, bmhWasDirty, p)
    {
      var bmhDirty := bmhWasDirty;
      match p.answer {
        case Error(needsRegistration) => result := ActionError(needsRegistration);
        case Result(dirty, delay, message) =>
          if message != NoMessage {
            if bmhDirty {
              ClearHostProvisioningSettings();
            }
            if env.answers.hfc.changes && !env.answers.hfcSaved {
              return ActionError(false);
            }
            result := RecordActionFailure(PreparationError, message);
            return;
          }
          if env.answers.hfc.changes && p.started && !env.answers.hfcSaved {
            return ActionError(false);
          }
          if bmhDirty && p.started {
            status := status.(settings := target);
          }
          if p.started {
            var cleared := ClearErrorWith(OK);
            bmhDirty := bmhDirty || cleared;
          }
          if !dirty {
            return ActionComplete;
          }
          result := if bmhDirty then ActionUpdate(delay) else ActionContinue(delay);
      }
    }

    // ----- provisioning and deprovisioning -----

    method RecordImage()
      modifies this`status
      ensures Model() == RecordDeployed(old(Model()), env)
    {
      if env.spec.image.Some? && status.deployed.image != env.spec.image.value {
        status := status.(deployed := status.deployed.(image := env.spec.image.value));
      }
      if env.spec.customDeploy.Some? && status.deployed.customDeploy != env.spec.customDeploy {
        status := status.(deployed := status.deployed.(customDeploy := env.spec.customDeploy));
      }
    }

    method ActionProvisioning() returns (result: ActionResult)
      modifies this`status, this`failures, this`trace
      ensures Step(Model(), result) == Provision(old(Model()), env)
    {
      if status.hardwareProfile !in env.profiles {
        return ActionError(false);
      }
      if env.answers.imageAuthError.Some? {
        result := RecordActionFailure(ProvisioningError, env.answers.imageAuthError.value);
        return;
      }
      Log(ProvisionCalled);
      match env.answers.provision {
        case Error(needsRegistration) => result := ActionError(needsRegistration);
        case Result(dirty, delay, message) =>
          if message != NoMessage {
            result := RecordActionFailure(ProvisioningError, message);
            return;
          }
          if env.meta.anyReboot {
            result := ClearAnnotations();
            return;
          }
          if dirty {
            result := Continue(delay);
            return;
          }
          RecordImage();
          result := ActionComplete;
      }
    }

    method ActionDeprovisioning() returns (result: ActionResult)
      modifies this`status, this`failures, this`trace
      ensures Step(Model(), result) == Deprovision(old(Model()), env)
    {
      if Recorded(status.deployed) {
        match env.answers.adopt {
          case Error(needsRegistration) => return ActionError(needsRegistration);
          case Result(dirty, delay, message) =>
            if message != NoMessage {
              result := RecordActionFailure(ProvisionedRegistrationError, message);
              return;
            }
            if dirty {
              result := Continue(delay);
              return;
            }
        }
      }
      result := CallDeprovision();
    }

    method CallDeprovision() returns (result: ActionResult)
      modifies this`status, this`failures, this`trace
      ensures Step(Model(), result) == DeprovisionAdopted(old(Model()), env)
    {
      Log(DeprovisionCalled);
      match env.answers.deprovision {
        case Error(needsRegistration) => result := ActionError(needsRegistration);
        case Result(dirty, delay, message) =>
          if message != NoMessage {
            result := RecordActionFailure(ProvisioningError, message);
            return;
          }
          if dirty {
            result := Continue(delay);
            return;
          }
          if env.meta.anyReboot {
            result := ClearAnnotations();
            return;
          }
          status := status.(deployed := NOTHING_DEPLOYED);
          ClearHostProvisioningSettings();
          result := ActionComplete;
      }
    }

    // ----- steady state -----

    method DoServiceIfNeeded(settingsOnReboot: bool, updatesOnReboot: bool) returns (result: ActionResult)
      modifies this`status, this`failures
      ensures Step(Model(), result) == Service(old(Model()), env, settingsOnReboot, updatesOnReboot)
    {
      var fwDirty, hfsDirty, hfcDirty := false, false, false;
      if settingsOnReboot {
        fwDirty := status.settings.firmware != env.spec.firmware;
        if env.answers.hfs.NotReady? {
          return ActionError(false);
        }
        hfsDirty := env.answers.hfs.changes;
      }
      if updatesOnReboot {
        if env.answers.hfc.NotReady? {
          return ActionError(false);
        }
        hfcDirty := env.answers.hfc.changes;
      }
      var hasChanges := fwDirty || hfsDirty || hfcDirty;
      if !hasChanges && status.health.op != Servicing && status.health.errorType != ServicingError {
        return NoAction;
      }
      if status.health.op != Servicing {
        var _ := SetOperationalStatus(Servicing);
        return ActionUpdate(0);
      }
      result := CallService(fwDirty, hfcDirty);
    }

    method CallService(fwDirty: bool, hfcDirty: bool) returns (result: ActionResult)
      requires status.health.op == Servicing
      modifies this`status, this`failures
      ensures Step(Model(), result) == Serviced(old(Model()), env, fwDirty, hfcDirty)
    {
      match env.answers.service {
        case Error(needsRegistration) => result := ActionError(needsRegistration);
        case Result(dirty, delay, message) =>
          if message != NoMessage {
            status := SetFirmware(status, None);
            if hfcDirty && !env.answers.hfcSaved {
              return ActionError(false);
            }
            result := RecordActionFailure(ServicingError, message);
            return;
          }
          var changed := ClearErrorWith(Servicing);
          if env.answers.serviceStarted && fwDirty {
            status := SetFirmware(status, env.spec.firmware);
            changed := true;
          }
          if hfcDirty && env.answers.serviceStarted && !env.answers.hfcSaved {
            return ActionError(false);
          }
          if changed {
            return ActionUpdate(delay);
          }
          if dirty {
            return ActionContinue(delay);
          }
          var cleared := ClearErrorWith(OK);
          result := if cleared then ActionUpdate(60) else NoAction;
      }
    }

    method HandleDataImageActions() returns (result: ActionResult)
      ensures result == match GateVerdict(env)
                        case Pass => NoAction
                        case Requeue => ActionContinue(60)
                        case Failure => ActionError(false)
    {
      var handler := new DataImages.DataImageHandler(env.answers.dataImage, env.answers.dataImageAnswers);
      var verdict := handler.HandleDataImageActions();
      match verdict {
        case Pass => result := NoAction;
        case Requeue => result := ActionContinue(60);
        case Failure => result := ActionError(false);
      }
    }

    method ManageHostPower() returns (result: ActionResult)
      modifies this`status, this`failures, this`trace
      ensures Step(Model(), result) == ManagePower(old(Model()), env)
    {
      match env.answers.power {
        case PowerError => return ActionError(false);
        case PowerUnknown =>
        case Power(on) =>
          if on != status.poweredOn {
            status := status.(poweredOn := on);
            if status.health.op == ErrorStatus && status.health.errorType == PowerManagementError {
              var _ := ClearErrorWith(OK);
            }
            return ActionUpdate(0);
          }
      }
      var isProvisioned := IsProvisioned(status.state);
      var servicingAllowed := isProvisioned && env.spec.online && !status.poweredOn;
      if servicingAllowed {
        result := HandleDataImageActions();
        if result != NoAction {
          return;
        }
      }
      if !status.poweredOn && env.meta.suffixlessReboot {
        result := ClearAnnotations();
        return;
      }
      if servicingAllowed || status.health.op == Servicing || status.health.errorType == ServicingError {
        match env.answers.policy {
          case PolicyError => return ActionError(false);
          case Policy(settingsOnReboot, updatesOnReboot) =>
            result := DoServiceIfNeeded(settingsOnReboot, updatesOnReboot);
            if result != NoAction {
              return;
            }
        }
      }
      result := SetPower();
    }

    method SetPower() returns (result: ActionResult)
      modifies this`status, this`failures, this`trace
      ensures Step(Model(), result) == ChangePower(old(Model()), env)
    {
      var desired := env.spec.online;
      if (if IsProvisioned(status.state) then env.meta.anyReboot else env.meta.forcedReboot) {
        desired := false;
      }
      if status.poweredOn == desired {
        return ActionContinue(60);
      }
      if desired {
        Log(PowerOnCalled);
      } else {
        Log(PowerOffCalled);
      }
      match env.answers.powerChange {
        case Error(needsRegistration) => result := ActionError(needsRegistration);
        case Result(dirty, delay, message) =>
          if env.spec.disablePowerOff && env.meta.suffixlessReboot {
            result := ClearAnnotations();
            return;
          }
          if message != NoMessage {
            result := RecordActionFailure(PowerManagementError, message);
            return;
          }
          if dirty {
            result := Continue(delay);
            return;
          }
          status := status.(poweredOn := env.spec.online);
          SetErrorCounter(0);
          result := ActionUpdate(60);
      }
    }

    method ActionManageSteadyState() returns (result: ActionResult)
      modifies this`status, this`failures, this`trace
      ensures Step(Model(), result) == ManageSteadyState(old(Model()), env)
    {
      match env.answers.adopt {
        case Error(needsRegistration) => result := ActionError(needsRegistration);
        case Result(dirty, delay, message) =>
          if message != NoMessage {
            result := RecordActionFailure(ProvisionedRegistrationError, message);
          } else if dirty {
            result := Continue(delay);
          } else {
            result := ManageHostPower();
          }
      }
    }

    method ActionManageAvailable() returns (result: ActionResult)
      modifies this`status, this`failures, this`trace
      ensures Step(Model(), result) == ManageAvailable(old(Model()), env)
    {
      if NeedsProvisioning(env.spec, status.deployed) {
        var _ := ClearErrorWith(OK);
        return ActionComplete;
      }
      result := ManageHostPower();
    }

    // ----- the guards of the state machine -----

    method CheckCapacity(answer: CapacityAnswer) returns (result: ActionResult)
      modifies this`status, this`trace
      ensures Step(Model(), result) == EnsureCapacity(old(Model()), answer)
    {
      match answer {
        case CapacityError => result := ActionError(false);
        case Capacity(free) =>
          Log(CapacityChecked(free));
          result := NoAction;
          if !free {
            result := RecordActionDelayed();
          }
      }
    }

    method CheckDelayed() returns (result: ActionResult)
      modifies this`status, this`trace
      ensures Step(Model(), result) == CheckDelayedHost(old(Model()), env)
    {
      result := NoAction;
      if status.health.op == Delayed {
        result := CheckCapacity(env.answers.capacityBefore);
        if result != NoAction {
          return;
        }
        var _ := ClearErrorWith(OK);
        return ActionUpdate(0);
      }
      if status.state in {Inspecting, Provisioning, Deprovisioning} {
        result := CheckCapacity(env.answers.capacityBefore);
      }
    }

    method CheckInitiateDelete() returns (initiated: bool)
      modifies this`next
      ensures initiated <==> InitiatedState(old(next), status, env.meta).Some?
      ensures next == if initiated then InitiatedState(old(next), status, env.meta).value else old(next)
    {
      if !env.meta.deleting {
        return false;
      }
      if next != Deleting && status.health.op == Detached {
        if DelaysDeletion(env.meta, status) {
          return false;
        }
        next := Deleting;
        return true;
      }
      match next {
        case Registering | Unmanaged | NoState => next := Deleting;
        case Provisioning | Provisioned => next := Deprovisioning;
        case Deprovisioning | PoweringOffBeforeDelete =>
          if status.health.errorType == RegistrationError && status.health.errorCount > 3 {
            next := Deleting;
            return true;
          }
          return false;
        case Deleting => return false;
        case _ => next := PoweringOffBeforeDelete;
      }
      initiated := true;
    }

    method CheckDetached() returns (result: ActionResult)
      modifies this`status, this`failures
      ensures Step(Model(), result) == CheckDetachedHost(old(Model()), env)
    {
      if env.meta.detached != NotDetached {
        match status.state {
          case Provisioned | ExternallyProvisioned | Ready | Available =>
            result := Detach();
            return;
          case Deleting =>
          case _ =>
            if env.meta.detached.Arguments? && env.meta.detached.force {
              result := Detach();
              return;
            }
        }
      }
      if status.health.errorType == DetachError {
        var _ := ClearErrorWith(OK);
        SetErrorCounter(0);
        return ActionUpdate(0);
      }
      if status.health.op == Detached {
        var _ := SetOperationalStatus(if status.health.errorType != NoError then ErrorStatus else OK);
        return ActionUpdate(0);
      }
      result := NoAction;
    }

    method BeginRegistration()
      modifies this`status
      ensures Model() == RetryRegistration(old(Model()), env)
    {
      if next != Registering {
        if status.health.errorType == RegistrationError || !Match(status.good, env.secret) {
          RecordStateBegin(Registering, env.clock.registerBegin);
        }
      }
    }

    method CheckRegistered() returns (result: ActionResult)
      modifies this`status, this`failures, this`trace
      ensures Step(Model(), result) == EnsureRegistered(old(Model()), env)
    {
      hide RegisterHost, EndMetric, EndsMetric, RetryRegistration, InspectionDisabled;
      result := NoAction;
      if !env.haveCreds {
        return;
      }
      match next {
        case NoState | Unmanaged | MatchProfile | Deleting => return;
        case _ =>
          if next == Inspecting && InspectionDisabled(env.spec, env.meta) {
            return;
          }
      }
      BeginRegistration();
      result := Register();
      var complete := result == ActionComplete;
      if (result == NoAction || complete) && next != Registering {
        var ended := RecordStateEnd(Registering, env.clock.registerEnd);
        if ended {
          result := ActionUpdate(0);
        }
      }
      if complete {
        result := ActionUpdate(0);
      }
    }

    // ----- the handlers -----

    method CallHandleNone() returns (result: ActionResult)
      modifies this`status, this`next
      ensures Step(Model(), result) == HandleNone(old(Model()), env)
    {
      if HasBMCDetails(env.spec) {
        next := Registering;
      } else {
        var _ := SetOperationalStatus(Discovered);
        next := Unmanaged;
      }
      result := ActionComplete;
    }

    method CallHandleUnmanaged() returns (result: ActionResult)
      modifies this`next
      ensures Step(Model(), result) == HandleUnmanaged(old(Model()), env)
    {
      result := ActionUnmanaged();
      if result == ActionComplete {
        next := Registering;
      }
    }

    method CallHandleRegistering() returns (result: ActionResult)
      modifies this`status, this`next
      ensures Step(Model(), result) == HandleRegistering(old(Model()), env)
    {
      if env.spec.externallyProvisioned {
        next := ExternallyProvisioned;
      } else if InspectionDisabled(env.spec, env.meta) {
        next := Preparing;
      } else {
        next := Inspecting;
      }
      SetErrorCounter(0);
      result := ActionComplete;
    }

    method CallHandleInspecting() returns (result: ActionResult)
      modifies this`status, this`next, this`failures, this`trace
      ensures Step(Model(), result) == HandleInspecting(old(Model()), env)
    {
      result := ActionInspecting();
      if result == ActionComplete {
        next := Preparing;
        SetErrorCounter(0);
      }
    }

    method CallHandleMatchProfile() returns (result: ActionResult)
      modifies this`status, this`next
      ensures Step(Model(), result) == HandleMatchProfile(old(Model()))
    {
      next := Preparing;
      SetErrorCounter(0);
      result := ActionComplete;
    }

    method CallHandleExternallyProvisioned() returns (result: ActionResult)
      modifies this`status, this`next, this`failures, this`trace
      ensures Step(Model(), result) == HandleExternallyProvisioned(old(Model()), env)
    {
      if env.spec.externallyProvisioned {
        result := ActionManageSteadyState();
        return;
      }
      RecordImage();
      next := Provisioned;
      result := ActionComplete;
    }

    method CallHandlePreparing() returns (result: ActionResult)
      modifies this`status, this`next, this`failures
      ensures Step(Model(), result) == HandlePreparing(old(Model()), env)
    {
      result := ActionPreparing();
      if result == ActionComplete {
        SetErrorCounter(0);
        next := Available;
      }
    }

    method CallHandleAvailable() returns (result: ActionResult)
      modifies this`status, this`next, this`failures, this`trace
      ensures Step(Model(), result) == HandleAvailable(old(Model()), env)
    {
      if env.spec.externallyProvisioned {
        next := ExternallyProvisioned;
        ClearHostProvisioningSettings();
        return ActionComplete;
      }
      if env.meta.inspect == InspectRefresh {
        next := Inspecting;
        return ActionComplete;
      }
      var copy := new SettingsRecord(status.settings);
      var dirty, ok := copy.SaveHostProvisioningSettings(SourceFor(env, status));
      if !ok {
        return ActionError(false);
      }
      if dirty {
        next := Preparing;
        return ActionComplete;
      }
      if env.answers.hfs.NotReady? {
        return ActionError(false);
      }
      if env.answers.hfs.changes {
        next := Preparing;
        return ActionComplete;
      }
      if env.answers.hfc.NotReady? {
        return ActionError(false);
      }
      if env.answers.hfc.changes {
        next := Preparing;
        return ActionComplete;
      }
      result := ActionManageAvailable();
      if result == ActionComplete {
        next := Provisioning;
      }
    }

    method ImageProvisioningCancelled() returns (cancelled: bool)
      ensures cancelled <==> ImageCancelled(env.spec, status.deployed)
    {
      if env.spec.image == None {
        return true;
      }
      if env.spec.image.value.url == "" {
        return true;
      }
      if status.deployed.image.url == "" {
        return false;
      }
      cancelled := env.spec.image.value.url != status.deployed.image.url;
    }

    method ProvisioningCancelled() returns (cancelled: bool)
      ensures cancelled <==> Cancelled(env.spec, status.deployed)
    {
      var deployed := status.deployed;
      if env.spec.customDeploy != None && env.spec.customDeploy.value != "" {
        if deployed.customDeploy != None && deployed.customDeploy.value != ""
           && env.spec.customDeploy.value != deployed.customDeploy.value {
          return true;
        }
        return deployed.image.url != "" && (env.spec.image == None || env.spec.image.value.url != deployed.image.url);
      } else if deployed.customDeploy != None && deployed.customDeploy.value != "" {
        return true;
      }
      cancelled := ImageProvisioningCancelled();
    }

    method CallHandleProvisioning() returns (result: ActionResult)
      modifies this`status, this`next, this`failures, this`trace
      ensures Step(Model(), result) == HandleProvisioning(old(Model()), env)
    {
      var cancelled := ProvisioningCancelled();
      if status.health.errorType != NoError || cancelled {
        next := Deprovisioning;
        return ActionComplete;
      }
      result := ActionProvisioning();
      if result == ActionComplete {
        next := Provisioned;
        SetErrorCounter(0);
      }
    }

    method CallHandleProvisioned() returns (result: ActionResult)
      modifies this`status, this`next, this`failures, this`trace
      ensures Step(Model(), result) == HandleProvisioned(old(Model()), env)
    {
      var cancelled := ProvisioningCancelled();
      if cancelled {
        next := Deprovisioning;
        return ActionComplete;
      }
      result := ActionManageSteadyState();
    }

    method CallHandleDeprovisioning() returns (result: ActionResult)
      modifies this`status, this`next, this`failures, this`trace
      ensures Step(Model(), result) == HandleDeprovisioning(old(Model()), env)
    {
      result := ActionDeprovisioning();
      if !env.meta.deleting {
        if result == ActionComplete {
          next := Available;
          SetErrorCounter(0);
        }
        return;
      }
      match result {
        case ActionComplete =>
          next := PoweringOffBeforeDelete;
          SetErrorCounter(0);
        case ActionFailed(_, _) =>
          if status.health.errorCount > RETRY_COUNT {
            next := PoweringOffBeforeDelete;
            return ActionComplete;
          }
        case ActionError(needsRegistration) =>
          if needsRegistration && !env.haveCreds {
            next := Deleting;
            return ActionComplete;
          }
        case _ =>
      }
    }

    method CallHandlePoweringOff() returns (result: ActionResult)
      modifies this`status, this`next, this`failures, this`trace
      ensures Step(Model(), result) == HandlePoweringOff(old(Model()), env)
    {
      result := ActionPowerOffBeforeDeleting();
      match result {
        case ActionComplete =>
          next := Deleting;
          SetErrorCounter(0);
          status := status.(poweredOn := false);
        case ActionFailed(_, _) =>
          if status.health.errorCount > RETRY_COUNT {
            next := Deleting;
            return ActionComplete;
          }
        case ActionError(needsRegistration) =>
          if needsRegistration && !env.haveCreds {
            next := Deleting;
            return ActionComplete;
          }
        case _ =>
      }
    }

    method CallHandler() returns (result: ActionResult)
      modifies this`status, this`next, this`finalizer, this`failures, this`trace
      ensures Step(Model(), result) == Handle(old(Model()), env)
    {
      hide HandleNone, HandleUnmanaged, HandleRegistering, HandleInspecting, HandleMatchProfile,
           HandleExternallyProvisioned, HandlePreparing, HandleAvailable, HandleProvisioning, HandleProvisioned,
           HandleDeprovisioning, HandlePoweringOff, DeleteHost;
      Log(HandlerRun(status.state));
      match status.state {
        case NoState => result := CallHandleNone();
        case Unmanaged => result := CallHandleUnmanaged();
        case Registering => result := CallHandleRegistering();
        case Inspecting => result := CallHandleInspecting();
        case ExternallyProvisioned => result := CallHandleExternallyProvisioned();
        case MatchProfile => result := CallHandleMatchProfile();
        case Preparing => result := CallHandlePreparing();
        case Available | Ready => result := CallHandleAvailable();
        case Provisioning => result := CallHandleProvisioning();
        case Provisioned => result := CallHandleProvisioned();
        case Deprovisioning => result := CallHandleDeprovisioning();
        case PoweringOffBeforeDelete => result := CallHandlePoweringOff();
        case Deleting => result := ActionDeleting();
      }
    }

    // ----- one pass -----

    method EnterNextState(initial: State)
      modifies this`status, this`trace
      ensures Model() == Enter(old(Model()), initial, env)
    {
      hide BeginMetric, EndMetric, EndsMetric;
      var now := env.clock.transition;
      var _ := RecordStateEnd(initial, now);
      RecordStateBegin(next, now);
      status := status.(state := next);
      if next in {Registering, Inspecting, Provisioning} {
        status := status.(bootMode := EffectiveBootMode(env.spec));
      }
      Log(StateEntered(next));
    }

    /** updateHostStateFrom */
    method UpdateHostStateFrom(initial: State) returns (override: ActionResult)
      modifies this`status, this`trace
      ensures Step(Model(), override) == UpdateState(old(Model()), initial, env)
    {
      hide Enter;
      override := NoAction;
      if next != initial {
        if next in {Inspecting, Provisioning, Deprovisioning} {
          override := CheckCapacity(env.answers.capacityAfter);
          if override != NoAction {
            return;
          }
        }
        EnterNextState(initial);
      }
    }

    /** The guards and the handler of ReconcileState; the caller runs the deferred update on every way out. */
    method Try() returns (result: ActionResult)
      requires next == status.state
      modifies this`status, this`next, this`finalizer, this`failures, this`trace
      ensures Step(Model(), result) == Attempt(old(Model()), env)
    {
      hide CheckDelayedHost, InitiatedState, CheckDetachedHost, EnsureRegistered, Handle;
      result := CheckDelayed();
      if result != NoAction {
        return;
      }
      var initiated := CheckInitiateDelete();
      if initiated {
        return ActionComplete;
      }
      result := CheckDetached();
      if result != NoAction {
        return;
      }
      result := CheckRegistered();
      if result != NoAction {
        return;
      }
      result := CallHandler();
    }

    method ReconcileHostState() returns (result: ActionResult)
      requires Model() == Start(server, finalizer)
      modifies this`status, this`next, this`finalizer, this`failures, this`trace
      ensures Step(Model(), result) == ReconcileState(server, old(finalizer), env)
    {
      hide Attempt, UpdateState;
      var initial := status.state;
      result := Try();
      var override := UpdateHostStateFrom(initial);
      if override != NoAction {
        result := override;
      }
    }
  }

  /** One reconcile of the controller: what it leaves on the server, and what it reports. */
  method ReconcileOnce(s: Status, r: Round) returns (reconciled: Reconciled)
    ensures reconciled == Reconcile(s, r)
  {
    hide ReconcileState;
    if r.interrupted {
      return Reconciled(s, NoAction, r.finalizer, false, 0, []);
    }
    var machine := new HostStateMachine(s, r.finalizer, r.env);
    if s.state !in {NoState, Unmanaged} && r.credentialsError.Some? && !r.env.meta.deleting {
      var _ := machine.RecordActionFailure(RegistrationError, r.credentialsError.value);
      return Reconciled(if r.saveOk then machine.status else s, NoAction, r.finalizer, r.saveOk, 1, []);
    }
    var result := machine.ReconcileHostState();
    var saved := false;
    if !result.ActionError? && (Dirty(result) || r.conditionsChanged) {
      saved := r.saveOk;
    }
    reconciled := Reconciled(if saved then machine.status else s, result, machine.finalizer, saved, machine.failures,
      machine.trace);
  }
}
