/** The reconciler actions, as functions on the in-memory state of one reconcile
    (internal/controller/metal3.io/baremetalhost_controller.go). */
module Actions {
  import opened HostTypes
  import opened ActionResults
  import opened Settings
  import opened IronicPrepare
  import DataImages

  // ----- what one reconcile reads -----

  datatype RegisterAnswer = NeedsImage | RegisterError(needsRegistration: bool) | Registered(result: Answer, id: string)

  datatype ImageAnswer = NoImage | ImageFound | ImageBuildError(message: Message) | ImageLookupError

  datatype RegisterAnswers = RegisterAnswers(
    formatsError: bool,
    wantsImage: bool,
    image: ImageAnswer,
    networkDataError: Option<Message>,
    register: RegisterAnswer,
    resourcesError: bool)

  datatype CapacityAnswer = CapacityError | Capacity(free: bool)

  /** A HostFirmwareSettings or HostFirmwareComponents object: unreadable or not ready, or with pending changes or
      not. */
  datatype Firmwares = NotReady | Pending(changes: bool)

  datatype PolicyAnswer = PolicyError | Policy(settingsOnReboot: bool, updatesOnReboot: bool)

  datatype PowerAnswer = PowerUnknown | PowerError | Power(on: bool)

  datatype Answers = Answers(
    capacityBefore: CapacityAnswer,
    capacityAfter: CapacityAnswer,
    register: RegisterAnswers,
    detach: Answer,
    inspect: Answer,
    inspectStarted: bool,
    detailsFound: bool,
    hardwareDataSaved: bool,
    hostUpdated: bool,
    hfs: Firmwares,
    hfc: Firmwares,
    hfcSaved: bool,
    node: NodeEnv,
    imageAuthError: Option<Message>,
    provision: Answer,
    adopt: Answer,
    deprovision: Answer,
    power: PowerAnswer,
    dataImage: DataImages.World,
    dataImageAnswers: DataImages.Answers,
    policy: PolicyAnswer,
    service: Answer,
    serviceStarted: bool,
    powerChange: Answer,
    delete: Answer,
    secretsReleased: bool)

  /** metav1.Now(), called up to three times in one reconcile. */
  datatype Clock = Clock(registerBegin: Time, registerEnd: Time, transition: Time)

  /** `profiles` is the table of hardware profiles and `fallbackProfile` the one for a host that names none
      (libvirt or unknown, by its BMC address). */
  datatype Inputs = Inputs(spec: Spec, meta: Meta, secret: Secret, haveCreds: bool, clock: Clock, profiles: Profiles,
                           fallbackProfile: string, answers: Answers)

  // ----- what one reconcile changes -----

  /** What an observer sees of one reconcile. AnnotationsCleared is the write that takes the annotations of an action
      off the host; MetricObserved is a callback that runs only after a successful save. */
  datatype Event =
    | CapacityChecked(free: bool)
    | RegisterCalled
    | HandlerRun(state: State)
    | InspectCalled
    | ProvisionCalled
    | DeprovisionCalled
    | PowerOnCalled
    | PowerOffCalled
    | AnnotationsCleared
    | StateEntered(state: State)
    | MetricObserved(state: State)

  /** The host as the API server has it, the working copy of its status, the state to move to, whether the host
      still has its finalizer, the failures recorded so far and the events so far. */
  datatype Hsm = Hsm(server: Status, status: Status, next: State, finalizer: bool, failures: nat, trace: seq<Event>)

  datatype Step = Step(h: Hsm, result: ActionResult)

  function Log(h: Hsm, e: Event): Hsm {
    h.(trace := h.trace + [e])
  }

  // ----- errors -----

  /** clearErrorWithStatus */
  function ClearErrorWithStatus(s: Status, op: OperationalStatus): Status {
    s.(health := s.health.(op := op, errorType := NoError, errorMessage := NoMessage))
  }

  function ClearError(s: Status): Status {
    ClearErrorWithStatus(s, OK)
  }

  /** clearError has something to clear. */
  predicate ShowsError(s: Status) {
    s.health.op != OK || HasError(s)
  }

  predicate HasError(s: Status) {
    !s.health.errorType.NoError? || !s.health.errorMessage.NoMessage?
  }

  /** setErrorMessage */
  function SetErrorMessage(s: Status, errorType: ErrorType, message: Message): Status {
    s.(health := Health(ErrorStatus, errorType, message, s.health.errorCount + 1))
  }

  /** recordActionFailure */
  function RecordFailure(h: Hsm, errorType: ErrorType, message: Message): Step {
    var s := SetErrorMessage(h.status, errorType, message);
    Step(h.(status := s, failures := h.failures + 1), ActionFailed(errorType, s.health.errorCount))
  }

  /** SetOperationalStatus */
  function SetOp(s: Status, op: OperationalStatus): Status {
    s.(health := s.health.(op := op))
  }

  function SetErrorCount(s: Status, errorCount: nat): Status {
    s.(health := s.health.(errorCount := errorCount))
  }

  /** recordActionDelayed */
  function RecordDelayed(h: Hsm): Step {
    Step(h.(status := SetOp(h.status, Delayed)), ActionDelayed)
  }

  /** An action in progress: clear the error, and save if that changed anything. */
  function ContinueClearing(h: Hsm, delay: nat): Step {
    Step(h.(status := ClearError(h.status)),
         if ShowsError(h.status) then ActionUpdate(delay) else ActionContinue(delay))
  }

  /** Writing the host object without its annotations reads its status back from the server. */
  function UpdateHost(h: Hsm, env: Inputs): Step {
    if env.answers.hostUpdated then Step(Log(h.(status := h.server), AnnotationsCleared), ActionContinue(0))
    else Step(h, ActionError(false))
  }

  // ----- registration -----

  /** getHardwareProfileName */
  function ProfileName(env: Inputs, status: Status): string {
    if status.hardwareProfile != "" then status.hardwareProfile
    else if env.spec.hardwareProfile != "" then env.spec.hardwareProfile
    else env.fallbackProfile
  }

  /** The states in which registerHost asks for a pre-provisioning image. */
  predicate UsesImage(spec: Spec, s: Status) {
    match s.state
    case Registering => false
    case Deleting => false
    case PoweringOffBeforeDelete => false
    case Provisioned => s.health.op == Servicing
    case ExternallyProvisioned => s.health.op == Servicing
    case Deprovisioning => !spec.cleaningDisabled
    case _ => true
  }

  function NoteTried(h: Hsm, env: Inputs): Hsm {
    h.(status := h.status.(tried := RecordCredentials(env.secret)))
  }

  /** registerHost */
  function RegisterHost(h: Hsm, env: Inputs): Step {
    if Match(h.status.tried, env.secret) then FindImage(h, env, false) else FindImage(NoteTried(h, env), env, true)
  }

  /** The pre-provisioning image and network data that the registration needs. */
  function FindImage(h: Hsm, env: Inputs, credsChanged: bool): Step {
    var a := env.answers.register;
    var wantsImage := a.wantsImage && UsesImage(env.spec, h.status);
    if a.formatsError then Step(h, ActionError(false))
    else if wantsImage && a.image.ImageBuildError? then RecordFailure(h, RegistrationError, a.image.message)
    else if wantsImage && a.image.ImageLookupError? then Step(h, ActionError(false))
    else if a.networkDataError.Some? then RecordFailure(h, RegistrationError, a.networkDataError.value)
    else RegisterNode(Log(h, RegisterCalled), env, wantsImage, credsChanged)
  }

  function RegisterNode(h: Hsm, env: Inputs, wantsImage: bool, credsChanged: bool): Step {
    match env.answers.register.register
    case NeedsImage =>
      if !wantsImage then Step(h, ActionError(false))
      else if !env.answers.register.image.ImageFound? then Step(h, ActionContinue(300))
      else RecordFailure(h, RegistrationError, ImageNotAcceptable)
    case RegisterError(needsRegistration) => Step(h, ActionError(needsRegistration))
    case Registered(result, id) =>
      match result
      case Error(needsRegistration) => Step(h, ActionError(needsRegistration))
      case Result(dirty, delay, message) =>
        if message != NoMessage then RecordFailure(h, RegistrationError, message)
        else if dirty then
          Step(h.(status := ClearError(RecordID(h.status, id))),
               if credsChanged || NewID(h.status, id) || ShowsError(h.status) then ActionUpdate(delay)
               else ActionContinue(delay))
        else MatchProfileAndCommit(h.(status := RecordID(h.status, id)), env)
  }

  predicate NewID(s: Status, id: string) {
    id != "" && id != s.id
  }

  function RecordID(s: Status, id: string): Status {
    if !NewID(s, id) then s
    else if s.state == Preparing then s.(id := id, settings := Clear(s.settings))
    else s.(id := id)
  }

  function ProfileSource(env: Inputs, s: Status): Source {
    SourceOf(env.profiles, env.spec, ProfileName(env, s))
  }

  /** matchProfile has something to record. */
  predicate NewProfile(env: Inputs, s: Status) {
    s.hardwareProfile != ProfileName(env, s) || s.settings.rootDeviceHints != WantedHints(ProfileSource(env, s))
  }

  function RecordProfile(env: Inputs, s: Status): Status {
    s.(hardwareProfile := ProfileName(env, s),
       settings := s.settings.(rootDeviceHints := WantedHints(ProfileSource(env, s))))
  }

  /** matchProfile and the end of registerHost. The dirty flag reported here is not the one registerHost started with:
      changes to the tried credentials and to the node ID alone are not reported. */
  function MatchProfileAndCommit(h: Hsm, env: Inputs): Step {
    if ProfileName(env, h.status) !in env.profiles then RecordFailure(h, RegistrationError, UnknownProfile)
    else if NewProfile(env, h.status) then Step(h.(status := RecordProfile(env, h.status)), ActionUpdate(0))
    else if !env.meta.deleting && env.answers.register.resourcesError then Step(h, ActionError(false))
    else CommitCredentials(h, env)
  }

  function CommitCredentials(h: Hsm, env: Inputs): Step {
    if !Match(h.status.good, env.secret) then
      Step(h.(status := ClearError(h.status).(good := RecordCredentials(env.secret))),
           if ShowsError(h.status) then ActionComplete else NoAction)
    else if h.status.health.errorType == RegistrationError then Step(h.(status := ClearError(h.status)), ActionComplete)
    else Step(h, NoAction)
  }

  // ----- detaching and deleting -----

  /** detachHost */
  function DetachHost(h: Hsm, env: Inputs): Step {
    match env.answers.detach
    case Error(needsRegistration) => Step(h, ActionError(needsRegistration))
    case Result(dirty, delay, message) =>
      if message != NoMessage then RecordFailure(h, DetachError, message)
      else if dirty then
        if h.status.health.errorType == DetachError then Step(h.(status := ClearError(h.status)), ActionUpdate(delay))
        else Step(h, ActionContinue(delay))
      else
        var s := if h.status.health.errorType == DetachError then SetErrorCount(ClearError(h.status), 0) else h.status;
        Step(h.(status := SetOp(s, Detached)),
             if s.health.op != Detached then ActionUpdate(600) else ActionContinue(600))
  }

  /** actionPowerOffBeforeDeleting */
  function PowerOffBeforeDeleting(h: Hsm, env: Inputs): Step {
    if env.spec.disablePowerOff then Step(h, ActionComplete)
    else
      var h1 := Log(h, PowerOffCalled);
      match env.answers.powerChange
      case Error(needsRegistration) => Step(h1, ActionError(needsRegistration))
      case Result(dirty, delay, message) =>
        if message != NoMessage then RecordFailure(h1, PowerManagementError, message)
        else if dirty then ContinueClearing(h1, delay)
        else Step(h1, ActionComplete)
  }

  /** actionDeleting */
  function DeleteHost(h: Hsm, env: Inputs): Step {
    if !h.finalizer then Step(h, DeleteComplete)
    else
      match env.answers.delete
      case Error(needsRegistration) => Step(h, ActionError(needsRegistration))
      case Result(dirty, delay, _) =>
        if dirty then Step(h, ActionContinue(delay))
        else if !env.answers.secretsReleased || !env.answers.hostUpdated then Step(h, ActionError(false))
        else Step(h.(finalizer := false, status := h.server), DeleteComplete)
  }

  // ----- enrolling, inspecting, preparing -----

  /** actionUnmanaged */
  function ManageUnmanaged(h: Hsm, env: Inputs): Step {
    Step(h, if HasBMCDetails(env.spec) then ActionComplete else ActionContinue(600))
  }

  /** actionInspecting */
  function Inspect(h: Hsm, env: Inputs): Step {
    if InspectionDisabled(env.spec, env.meta) then Step(h, ActionComplete)
    else
      var h1 := Log(h, InspectCalled);
      match env.answers.inspect
      case Error(needsRegistration) => Step(h1, ActionError(needsRegistration))
      case Result(dirty, delay, message) =>
        if message != NoMessage then RecordFailure(h1, InspectionError, message)
        else if env.answers.inspectStarted && (env.meta.inspect == InspectRefresh || env.meta.anyReboot) then
          UpdateHost(h1, env)
        else if dirty || !env.answers.detailsFound then ContinueClearing(h1, delay)
        else Step(h1.(status := ClearError(h1.status)),
                  if env.answers.hardwareDataSaved then ActionComplete else ActionError(false))
  }

  function SourceFor(env: Inputs, s: Status): Source {
    SourceOf(env.profiles, env.spec, s.hardwareProfile)
  }

  /** actionPreparing */
  function PrepareHost(h: Hsm, env: Inputs): Step {
    if WantedHints(SourceFor(env, h.status)).None? then Step(h, ActionError(false))
    else if env.answers.hfs.NotReady? || env.answers.hfc.NotReady? then Step(h, ActionContinue(60))
    else
      var target := Save(SourceFor(env, h.status), h.status.settings);
      var retry := h.status.health.errorType == PreparationError;
      var bmhDirty := target != h.status.settings || retry;
      Prepared(h, env, target, bmhDirty, CallPrepare(h, env, target, bmhDirty, retry))
  }

  function CallPrepare(h: Hsm, env: Inputs, target: HostSettings, bmhDirty: bool, retry: bool): Preparation
    requires env.answers.hfs.Pending? && env.answers.hfc.Pending?
  {
    Prepare(env.answers.node,
            PrepareData(target.raid, if retry then None else h.status.settings.raid),
            bmhDirty || env.answers.hfs.changes || env.answers.hfc.changes, retry)
  }

  /** What actionPreparing does with the provisioner's answer. */
  function Prepared(h: Hsm, env: Inputs, target: HostSettings, bmhDirty: bool, p: Preparation): Step
    requires env.answers.hfc.Pending?
  {
    var hfcLost := env.answers.hfc.changes && !env.answers.hfcSaved;
    match p.answer
    case Error(needsRegistration) => Step(h, ActionError(needsRegistration))
    case Result(dirty, delay, message) =>
      if message != NoMessage then
        var h1 := if bmhDirty then h.(status := h.status.(settings := Clear(h.status.settings))) else h;
        if hfcLost then Step(h1, ActionError(false)) else RecordFailure(h1, PreparationError, message)
      else if !p.started then
        Step(h, if !dirty then ActionComplete else if bmhDirty then ActionUpdate(delay) else ActionContinue(delay))
      else if hfcLost then Step(h, ActionError(false))
      else
        var saved := if bmhDirty then h.status.(settings := target) else h.status;
        Step(h.(status := ClearError(saved)),
             if !dirty then ActionComplete
             else if bmhDirty || ShowsError(saved) then ActionUpdate(delay)
             else ActionContinue(delay))
  }

  // ----- provisioning and deprovisioning -----

  /** actionProvisioning */
  function Provision(h: Hsm, env: Inputs): Step {
    if h.status.hardwareProfile !in env.profiles then Step(h, ActionError(false))
    else if env.answers.imageAuthError.Some? then RecordFailure(h, ProvisioningError, env.answers.imageAuthError.value)
    else
      var h1 := Log(h, ProvisionCalled);
      match env.answers.provision
      case Error(needsRegistration) => Step(h1, ActionError(needsRegistration))
      case Result(dirty, delay, message) =>
        if message != NoMessage then RecordFailure(h1, ProvisioningError, message)
        else if env.meta.anyReboot then UpdateHost(h1, env)
        else if dirty then ContinueClearing(h1, delay)
        else Step(RecordDeployed(h1, env), ActionComplete)
  }

  /** The image and the custom deploy that the spec asks for go on record; what it does not mention stays. */
  function Deployed(spec: Spec, deployed: Deployment): Deployment {
    Deployment(if spec.image.Some? then spec.image.value else deployed.image,
               if spec.customDeploy.Some? then spec.customDeploy else deployed.customDeploy)
  }

  function RecordDeployed(h: Hsm, env: Inputs): Hsm {
    h.(status := h.status.(deployed := Deployed(env.spec, h.status.deployed)))
  }

  /** actionDeprovisioning: a host with something on record is adopted first. */
  function Deprovision(h: Hsm, env: Inputs): Step {
    if !Recorded(h.status.deployed) then DeprovisionAdopted(h, env)
    else
      match env.answers.adopt
      case Error(needsRegistration) => Step(h, ActionError(needsRegistration))
      case Result(dirty, delay, message) =>
        if message != NoMessage then RecordFailure(h, ProvisionedRegistrationError, message)
        else if dirty then ContinueClearing(h, delay)
        else DeprovisionAdopted(h, env)
  }

  function DeprovisionAdopted(h: Hsm, env: Inputs): Step {
    var h1 := Log(h, DeprovisionCalled);
    match env.answers.deprovision
    case Error(needsRegistration) => Step(h1, ActionError(needsRegistration))
    case Result(dirty, delay, message) =>
      if message != NoMessage then RecordFailure(h1, ProvisioningError, message)
      else if dirty then ContinueClearing(h1, delay)
      else if env.meta.anyReboot then UpdateHost(h1, env)
      else
        Step(h1.(status := h1.status.(deployed := NOTHING_DEPLOYED, settings := Clear(h1.status.settings))),
             ActionComplete)
  }

  // ----- steady state -----

  function SetFirmware(s: Status, firmware: Option<Firmware>): Status {
    s.(settings := s.settings.(firmware := firmware))
  }

  /** doServiceIfNeeded */
  function Service(h: Hsm, env: Inputs, settingsOnReboot: bool, updatesOnReboot: bool): Step {
    var a := env.answers;
    if settingsOnReboot && a.hfs.NotReady? then Step(h, ActionError(false))
    else if updatesOnReboot && a.hfc.NotReady? then Step(h, ActionError(false))
    else
      var fwDirty := settingsOnReboot && h.status.settings.firmware != env.spec.firmware;
      var hfcDirty := updatesOnReboot && a.hfc.changes;
      var hasChanges := fwDirty || hfcDirty || (settingsOnReboot && a.hfs.changes);
      if !hasChanges && h.status.health.op != Servicing && h.status.health.errorType != ServicingError then
        Step(h, NoAction)
      else if h.status.health.op != Servicing then Step(h.(status := SetOp(h.status, Servicing)), ActionUpdate(0))
      else Serviced(h, env, fwDirty, hfcDirty)
  }

  /** What doServiceIfNeeded does with the provisioner's answer. */
  function Serviced(h: Hsm, env: Inputs, fwDirty: bool, hfcDirty: bool): Step {
    var a := env.answers;
    match a.service
    case Error(needsRegistration) => Step(h, ActionError(needsRegistration))
    case Result(dirty, delay, message) =>
      if message != NoMessage then
        var h1 := h.(status := SetFirmware(h.status, None));
        if hfcDirty && !a.hfcSaved then Step(h1, ActionError(false)) else RecordFailure(h1, ServicingError, message)
      else
        var recorded := a.serviceStarted && fwDirty;
        var cleared := ClearErrorWithStatus(h.status, Servicing);
        var s := if recorded then SetFirmware(cleared, env.spec.firmware) else cleared;
        if hfcDirty && a.serviceStarted && !a.hfcSaved then Step(h.(status := s), ActionError(false))
        else if recorded || HasError(h.status) then Step(h.(status := s), ActionUpdate(delay))
        else if dirty then Step(h.(status := s), ActionContinue(delay))
        else Step(h.(status := ClearError(s)), ActionUpdate(60))
  }

  predicate IsProvisioned(state: State) {
    state in {Provisioned, ExternallyProvisioned}
  }

  function GateVerdict(env: Inputs): DataImages.Verdict {
    DataImages.Gate(env.answers.dataImage, env.answers.dataImageAnswers).verdict
  }

  /** manageHostPower, up to the data-image gate and the reboot annotation. */
  function ManagePower(h: Hsm, env: Inputs): Step {
    if env.answers.power.PowerError? then Step(h, ActionError(false))
    else if env.answers.power.Power? && env.answers.power.on != h.status.poweredOn then
      var s := h.status.(poweredOn := env.answers.power.on);
      var powerFailed := s.health.op == ErrorStatus && s.health.errorType == PowerManagementError;
      Step(h.(status := if powerFailed then ClearError(s) else s),
           ActionUpdate(0))
    else
      var gated := IsProvisioned(h.status.state) && env.spec.online && !h.status.poweredOn;
      if gated && GateVerdict(env) != DataImages.Pass then
        Step(h, if GateVerdict(env) == DataImages.Requeue then ActionContinue(60) else ActionError(false))
      else if !h.status.poweredOn && env.meta.suffixlessReboot then UpdateHost(h, env)
      else ServiceOrPower(h, env, gated)
  }

  function ServiceOrPower(h: Hsm, env: Inputs, servicingAllowed: bool): Step {
    if servicingAllowed || h.status.health.op == Servicing || h.status.health.errorType == ServicingError then
      match env.answers.policy
      case PolicyError => Step(h, ActionError(false))
      case Policy(settingsOnReboot, updatesOnReboot) =>
        var serviced := Service(h, env, settingsOnReboot, updatesOnReboot);
        if serviced.result != NoAction then serviced else ChangePower(serviced.h, env)
    else ChangePower(h, env)
  }

  predicate DesiredOn(h: Hsm, env: Inputs) {
    env.spec.online && !(if IsProvisioned(h.status.state) then env.meta.anyReboot else env.meta.forcedReboot)
  }

  function ChangePower(h: Hsm, env: Inputs): Step {
    var desired := DesiredOn(h, env);
    if h.status.poweredOn == desired then Step(h, ActionContinue(60))
    else
      var h1 := Log(h, if desired then PowerOnCalled else PowerOffCalled);
      match env.answers.powerChange
      case Error(needsRegistration) => Step(h1, ActionError(needsRegistration))
      case Result(dirty, delay, message) =>
        if env.spec.disablePowerOff && env.meta.suffixlessReboot then UpdateHost(h1, env)
        else if message != NoMessage then RecordFailure(h1, PowerManagementError, message)
        else if dirty then ContinueClearing(h1, delay)
        else Step(h1.(status := SetErrorCount(h1.status, 0).(poweredOn := env.spec.online)), ActionUpdate(60))
  }

  /** actionManageSteadyState */
  function ManageSteadyState(h: Hsm, env: Inputs): Step {
    match env.answers.adopt
    case Error(needsRegistration) => Step(h, ActionError(needsRegistration))
    case Result(dirty, delay, message) =>
      if message != NoMessage then RecordFailure(h, ProvisionedRegistrationError, message)
      else if dirty then ContinueClearing(h, delay)
      else ManagePower(h, env)
  }

  /** actionManageAvailable */
  function ManageAvailable(h: Hsm, env: Inputs): Step {
    if NeedsProvisioning(env.spec, h.status.deployed) then Step(h.(status := ClearError(h.status)), ActionComplete)
    else ManagePower(h, env)
  }
}
