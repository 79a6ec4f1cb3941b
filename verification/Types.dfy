/** The BareMetalHost API: the parts of spec and status that the controller reads and writes,
    and the predicates defined beside them (apis/metal3.io/v1alpha1/baremetalhost_types.go). */
module HostTypes {

  datatype Option<+T> = None | Some(value: T)

  datatype State =
    | NoState
    | Unmanaged
    | Registering
    | MatchProfile
    | Preparing
    | Ready
    | Available
    | Provisioning
    | Provisioned
    | ExternallyProvisioned
    | Deprovisioning
    | Inspecting
    | PoweringOffBeforeDelete
    | Deleting

  datatype OperationalStatus = NoStatus | OK | Discovered | ErrorStatus | Delayed | Detached | Servicing

  datatype ErrorType =
    | NoError
    | ProvisionedRegistrationError
    | RegistrationError
    | InspectionError
    | PreparationError
    | ProvisioningError
    | PowerManagementError
    | DetachError
    | ServicingError

  /** An error message: empty, one of the controller's own, or a non-empty text from outside. */
  datatype Message =
    | NoMessage
    | ImageNotAcceptable
    | UnknownProfile
    | InvalidRAID
    | InvalidVolumes
    | InvalidBIOSSettings
    | Text(text: string)

  // ----- images -----

  datatype Image = Image(url: string, checksum: string, checksumType: string, diskFormat: Option<string>,
                         ociAuthSecretName: Option<string>)

  const EMPTY_IMAGE := Image("", "", "", None, None)

  /** unicode.ToLower, on the characters that lower to a letter of the scheme below: ASCII capitals and
      the dotted capital I. */
  function ToLower(c: char): char {
    if 'A' <= c <= 'Z' then (c as int + 32) as char else if c == '\U{0130}' then 'i' else c
  }

  const OCI_SCHEME := "oci://"

  /** Case-insensitive prefix test for the oci:// scheme. */
  predicate IsOCI(image: Image) {
    |image.url| >= |OCI_SCHEME| &&
    forall i | 0 <= i < |OCI_SCHEME| :: ToLower(image.url[i]) == OCI_SCHEME[i]
  }

  predicate IsLiveISO(image: Image) {
    image.diskFormat == Some("live-iso")
  }

  datatype Checksum = Checksum(value: string, algorithm: string) | ChecksumError

  /** Image.GetChecksum on a non-nil image. */
  function GetChecksum(image: Image): Checksum {
    if IsOCI(image) then
      if image.checksum != "" then ChecksumError else Checksum("", "")
    else if IsLiveISO(image) then Checksum("", "")
    else if image.checksum == "" then ChecksumError
    else if image.checksumType in {"md5", "sha256", "sha512"} then Checksum(image.checksum, image.checksumType)
    else if image.checksumType in {"", "auto"} then Checksum(image.checksum, "")
    else ChecksumError
  }

  // ----- settings -----

  // Volumes, hints and firmware settings are only copied and compared here: a number stands for their content.

  datatype Volume = Volume(content: nat)
  datatype Hints = Hints(content: nat)
  datatype Firmware = Firmware(content: nat)

  /** Go slices: None is the nil slice, Some([]) the empty non-nil one. */
  datatype RAIDConfig = RAIDConfig(hardware: Option<seq<Volume>>, software: Option<seq<Volume>>)

  const EMPTY_RAID := RAIDConfig(None, None)

  function Len(volumes: Option<seq<Volume>>): nat {
    if volumes.Some? then |volumes.value| else 0
  }

  /** The empty mode stands for the default, UEFI. */
  datatype BootMode = Unset | UEFI | UEFISecureBoot | Legacy

  // ----- credentials -----

  datatype SecretRef = SecretRef(name: string, namespace: string)
  datatype Secret = Secret(name: string, namespace: string, resourceVersion: string)
  datatype Credentials = Credentials(reference: Option<SecretRef>, version: string)

  const NO_CREDENTIALS := Credentials(None, "")

  /** CredentialsStatus.Match. */
  predicate Match(creds: Credentials, secret: Secret) {
    && creds.reference.Some?
    && creds.reference.value.name == secret.name
    && creds.reference.value.namespace == secret.namespace
    && creds.version == secret.resourceVersion
  }

  function RecordCredentials(secret: Secret): Credentials {
    Credentials(Some(SecretRef(secret.name, secret.namespace)), secret.resourceVersion)
  }

  // ----- operation history -----

  /** Instants; 0 is Go's zero time. */
  type Time = nat

  datatype Metric = Metric(start: Time, end: Time) {
    predicate Open() { start != 0 && end == 0 }
    predicate Closed() { start != 0 && end != 0 }
    /** OperationMetric.Duration */
    function Duration(): int { if start == 0 then 0 else end - start }
  }

  const NO_METRIC := Metric(0, 0)

  datatype History = History(register: Metric, inspect: Metric, provision: Metric, deprovision: Metric)

  /** OperationMetricForState: the states whose duration is recorded. */
  predicate HasMetric(state: State) {
    state in {Registering, Inspecting, Provisioning, Deprovisioning}
  }

  function MetricFor(history: History, state: State): Metric
    requires HasMetric(state)
  {
    match state
    case Registering => history.register
    case Inspecting => history.inspect
    case Provisioning => history.provision
    case _ => history.deprovision
  }

  function SetMetric(history: History, state: State, metric: Metric): History
    requires HasMetric(state)
  {
    match state
    case Registering => history.(register := metric)
    case Inspecting => history.(inspect := metric)
    case Provisioning => history.(provision := metric)
    case _ => history.(deprovision := metric)
  }

  // ----- the host -----

  /** The status of a host, with its fields grouped by what they are about. */
  datatype Status = Status(
    health: Health,
    state: State,
    id: string,
    deployed: Deployment,
    settings: HostSettings,
    bootMode: BootMode,
    good: Credentials,
    tried: Credentials,
    poweredOn: bool,
    history: History,
    hardwareProfile: string)

  datatype Health = Health(op: OperationalStatus, errorType: ErrorType, errorMessage: Message, errorCount: nat)

  /** What was provisioned last; CustomDeploy has the single field Method, so a custom deploy is an optional method
      name. */
  datatype Deployment = Deployment(image: Image, customDeploy: Option<string>)

  const NOTHING_DEPLOYED := Deployment(EMPTY_IMAGE, None)

  /** The settings that do not trigger reprovisioning. */
  datatype HostSettings =
    HostSettings(rootDeviceHints: Option<Hints>, raid: Option<RAIDConfig>, firmware: Option<Firmware>)

  /** The status of a host that has just been created. */
  const FRESH := Status(Health(NoStatus, NoError, NoMessage, 0), NoState, "", NOTHING_DEPLOYED,
                        HostSettings(None, None, None), Unset, NO_CREDENTIALS, NO_CREDENTIALS, false,
                        History(NO_METRIC, NO_METRIC, NO_METRIC, NO_METRIC), "")

  datatype Spec = Spec(
    online: bool,
    image: Option<Image>,
    customDeploy: Option<string>,
    raid: Option<RAIDConfig>,
    rootDeviceHints: Option<Hints>,
    firmware: Option<Firmware>,
    externallyProvisioned: bool,
    bootMode: BootMode,
    bmcAddress: string,
    credentialsName: string,
    inspectionDisabled: bool,
    disablePowerOff: bool,
    cleaningDisabled: bool,
    hardwareProfile: string)

  /** The detached annotation: absent, present with a value that is not JSON, or parsed; `delay` tells whether its
      deleteAction is "delay". */
  datatype DetachedAnnotation = NotDetached | Unparsable | Arguments(delay: bool, force: bool)

  /** The inspect annotation: absent, "disabled", or any other value, which asks for a new inspection. */
  datatype InspectAnnotation = NoInspect | InspectDisabled | InspectRefresh

  /** Metadata of the host as one reconcile reads it, with the annotations already parsed. */
  datatype Meta = Meta(
    deleting: bool,
    detached: DetachedAnnotation,
    inspect: InspectAnnotation,
    anyReboot: bool,
    forcedReboot: bool,
    suffixlessReboot: bool)

  predicate HasBMCDetails(spec: Spec) {
    spec.bmcAddress != "" || spec.credentialsName != ""
  }

  function EffectiveBootMode(spec: Spec): BootMode {
    if spec.bootMode == Unset then UEFI else spec.bootMode
  }

  predicate InspectionDisabled(spec: Spec, meta: Meta) {
    spec.inspectionDisabled || meta.inspect == InspectDisabled
  }

  predicate HasMethod(customDeploy: Option<string>) {
    customDeploy.Some? && customDeploy.value != ""
  }

  predicate HasURL(image: Option<Image>) {
    image.Some? && image.value.url != ""
  }

  predicate HasNewImage(spec: Spec, deployed: Deployment) {
    HasURL(spec.image) && deployed.image.url == ""
  }

  predicate HasNewCustomDeploy(spec: Spec, deployed: Deployment) {
    HasMethod(spec.customDeploy) && deployed.customDeploy != spec.customDeploy
  }

  predicate NeedsProvisioning(spec: Spec, deployed: Deployment) {
    spec.online && (HasNewImage(spec, deployed) || HasNewCustomDeploy(spec, deployed))
  }

  /** An image or a custom deploy is on record, whatever the spec says (WasProvisioned without its
      externally-provisioned exception). */
  predicate Recorded(deployed: Deployment) {
    deployed.image.url != "" || deployed.customDeploy.Some?
  }
}
