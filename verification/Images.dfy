/** Writing an image into a node and recognising it there (getInstanceUpdateOpts and ironicHasSameImage in
    pkg/provisioner/ironic/ironic.go). */
module Images {
  import opened HostTypes
  import opened OptionValues
  import opened UpdateOpts
  import opened JSONPatch

  /** The parts of an Ironic node that provisioning reads and patches. */
  datatype Node = Node(instanceInfo: Fields, driverInfo: Fields, deployInterface: string, instanceUUID: string)

  /** What Provision gets: the UID of the host, the boot mode, the root device hints as Ironic spells them, the image,
      the custom deploy method, the pull secret and the two settings of the provisioner. */
  datatype ProvisionData = ProvisionData(
    uid: string,
    bootMode: BootMode,
    hints: map<string, string>,
    image: Image,
    customDeploy: Option<string>,
    pullSecret: string,
    liveISOForcePersistentBootDevice: string,
    directDeployForcePersistentBootDevice: string)

  function Str(s: string): GoValue { Scalar("string", OptionValues.Str(s)) }
  function Wanted(s: string): Desired { Plain(Str(s)) }
  const UNWANTED := Plain(Nil)

  function Strings(m: map<string, string>): GoValue {
    Map(Typed("string"), map k | k in m :: Str(m[k]))
  }

  // ----- the options for an image -----

  /** buildInstanceInfoCapabilities */
  function InstanceCapabilities(mode: BootMode): map<string, string> {
    if mode == UEFISecureBoot then map["secure_boot" := "true"] else map[]
  }

  function InstanceOptions(data: ProvisionData): map<string, Desired> {
    map["capabilities" := Plain(Strings(InstanceCapabilities(data.bootMode))),
        "root_device" := Plain(Strings(data.hints))]
  }

  function LiveISOOptions(image: Image): map<string, Desired> {
    map["boot_iso" := Wanted(image.url),
        "image_source" := UNWANTED,
        "image_os_hash_value" := UNWANTED,
        "image_os_hash_algo" := UNWANTED,
        "image_checksum" := UNWANTED]
  }

  function OrUnwanted(s: string): Desired {
    if s == "" then UNWANTED else Wanted(s)
  }

  function DiskFormat(image: Image): Desired {
    if image.diskFormat.None? then NilPointer else PointerTo(Str(image.diskFormat.value))
  }

  function DirectOptions(image: Image, pullSecret: string): map<string, Desired>
    requires GetChecksum(image).Checksum?
  {
    var c := GetChecksum(image);
    map["boot_iso" := UNWANTED,
        "image_source" := Wanted(image.url),
        "image_disk_format" := DiskFormat(image),
        "image_pull_secret" := OrUnwanted(pullSecret),
        "image_checksum" := if c.algorithm == "" then OrUnwanted(c.value) else UNWANTED,
        "image_os_hash_algo" := OrUnwanted(c.algorithm),
        "image_os_hash_value" := if c.algorithm == "" then UNWANTED else Wanted(c.value)]
  }

  /** An image without a usable checksum changes no option at all. */
  function ImageOptions(image: Image, pullSecret: string): map<string, Desired> {
    if IsLiveISO(image) then LiveISOOptions(image)
    else if GetChecksum(image).Checksum? then DirectOptions(image, pullSecret)
    else map[]
  }

  // ----- recognising an image -----

  /** Reading a field that is missing or null gives nil. */
  predicate IsText(info: Fields, key: string, text: string) {
    key in info && info[key] == JAtom(OptionValues.Str(text))
  }

  predicate IsNil(info: Fields, key: string) {
    key !in info || info[key] == JNull
  }

  /** ironicHasSameImage */
  predicate HasSameImage(info: Fields, image: Image) {
    if IsLiveISO(image) then IsText(info, "boot_iso", image.url)
    else
      // An unusable checksum reads as an empty one.
      var c := if GetChecksum(image).Checksum? then GetChecksum(image) else Checksum("", "");
      if IsOCI(image) && c.value == "" then IsText(info, "image_source", image.url)
      else if c.algorithm == "" then
        && IsText(info, "image_source", image.url) && IsText(info, "image_checksum", c.value)
        && IsNil(info, "image_os_hash_algo") && IsNil(info, "image_os_hash_value")
      else
        && IsText(info, "image_source", image.url) && IsNil(info, "image_checksum")
        && IsText(info, "image_os_hash_algo", c.algorithm) && IsText(info, "image_os_hash_value", c.value)
  }

  /** Two images are the same for Ironic: the same URL, booted the same way, with the same checksum. */
  predicate SameImage(a: Image, b: Image) {
    a.url == b.url && (IsLiveISO(a) <==> IsLiveISO(b)) && GetChecksum(a) == GetChecksum(b)
  }

  lemma OCIReadsURL(a: Image, b: Image)
    requires a.url == b.url
    ensures IsOCI(a) == IsOCI(b)
  {
  }

  lemma ChecksumShape(image: Image)
    requires GetChecksum(image).Checksum?
    ensures GetChecksum(image).value == "" <==> IsOCI(image) || IsLiveISO(image)
    ensures GetChecksum(image).value == "" ==> GetChecksum(image).algorithm == ""
  {
  }

  lemma ErrorShape(image: Image)
    requires GetChecksum(image).ChecksumError? && IsLiveISO(image)
    ensures IsOCI(image)
  {
  }

  /** The fields that the reader looks at, after an image was written. */
  lemma WrittenSources(info: Fields, a: Image, pullSecret: string, text: string)
    requires GetChecksum(a).Checksum?
    ensures var (w, live) := (Override(info, ImageOptions(a, pullSecret)), IsLiveISO(a));
            && (IsText(w, "boot_iso", text) <==> live && a.url == text)
            && (IsText(w, "image_source", text) <==> !live && a.url == text)
  {
    hide GetChecksum, IsOCI;
  }

  lemma WrittenChecksum(info: Fields, a: Image, pullSecret: string, text: string)
    requires GetChecksum(a).Checksum?
    ensures var (w, c, live) := (Override(info, ImageOptions(a, pullSecret)), GetChecksum(a), IsLiveISO(a));
            && (IsText(w, "image_checksum", text) <==> !live && c.algorithm == "" && c.value == text != "")
            && (IsNil(w, "image_checksum") <==> live || c.algorithm != "" || c.value == "")
  {
    hide GetChecksum, IsOCI;
  }

  lemma WrittenHashes(info: Fields, a: Image, pullSecret: string, text: string)
    requires GetChecksum(a).Checksum?
    ensures var (w, c, live) := (Override(info, ImageOptions(a, pullSecret)), GetChecksum(a), IsLiveISO(a));
            && (IsText(w, "image_os_hash_algo", text) <==> !live && c.algorithm == text != "")
            && (IsNil(w, "image_os_hash_algo") <==> live || c.algorithm == "")
            && (IsText(w, "image_os_hash_value", text) <==> !live && c.algorithm != "" && c.value == text)
            && (IsNil(w, "image_os_hash_value") <==> live || c.algorithm == "")
  {
    hide GetChecksum, IsOCI;
  }

  /** Whatever the node held before, once a valid image has been written to it, exactly the images that agree with it
      are recognised there: same URL, both live ISOs or neither, same checksum and type. For an image whose checksum
      is itself unusable the answer is yes only if it is an OCI image with the URL and the kind of the one written. */
  lemma WrittenImageIsRecognised(info: Fields, a: Image, pullSecret: string, b: Image)
    requires GetChecksum(a).Checksum?
    ensures var written := Override(info, ImageOptions(a, pullSecret));
            && (GetChecksum(b).Checksum? ==> (HasSameImage(written, b) <==> SameImage(a, b)))
            && (GetChecksum(b).ChecksumError? ==>
                  (HasSameImage(written, b) <==> a.url == b.url && IsOCI(b) && (IsLiveISO(a) <==> IsLiveISO(b))))
  {
    hide GetChecksum, IsOCI, ImageOptions, Override, IsText, IsNil;
    ChecksumShape(a);
    WrittenSources(info, a, pullSecret, b.url);
    if a.url == b.url {
      OCIReadsURL(a, b);
    }
    if GetChecksum(b).Checksum? {
      ChecksumShape(b);
      WrittenChecksum(info, a, pullSecret, GetChecksum(b).value);
      WrittenHashes(info, a, pullSecret, GetChecksum(b).value);
      WrittenHashes(info, a, pullSecret, GetChecksum(b).algorithm);
    } else {
      WrittenChecksum(info, a, pullSecret, "");
      if IsLiveISO(b) {
        ErrorShape(b);
      }
    }
  }

  /** An image that cannot be written leaves the node as it is recognised. */
  lemma UnusableImageWritesNothing(info: Fields, a: Image, pullSecret: string, b: Image)
    requires GetChecksum(a).ChecksumError? && !IsLiveISO(a)
    ensures HasSameImage(Override(info, ImageOptions(a, pullSecret)), b) <==> HasSameImage(info, b)
  {
    assert Override(info, map[]) == info;
  }

  // ----- the source's procedure -----

  function CustomOptions(image: Image, pullSecret: string): map<string, Desired> {
    var c := GetChecksum(image);
    map["boot_iso" := UNWANTED,
        "image_checksum" := UNWANTED,
        "image_source" := if image.url == "" then UNWANTED else Wanted(image.url),
        "image_os_hash_algo" := if image.url != "" && c.Checksum? then Wanted(c.algorithm) else UNWANTED,
        "image_os_hash_value" := if image.url != "" && c.Checksum? then Wanted(c.value) else UNWANTED,
        "image_disk_format" := if image.url == "" then UNWANTED else DiskFormat(image),
        "image_pull_secret" := if image.url == "" then UNWANTED else OrUnwanted(pullSecret)]
  }

  function Options(data: ProvisionData): map<string, Desired> {
    if HasMethod(data.customDeploy) then CustomOptions(data.image, data.pullSecret)
    else ImageOptions(data.image, data.pullSecret)
  }

  const INSTANCE_INFO := "instance_info"
  const DRIVER_INFO := "driver_info"
  const DEPLOY_INTERFACE := "deploy_interface"
  const INSTANCE_UUID := "instance_uuid"

  function Document(node: Node): JSON {
    JMap(map[INSTANCE_INFO := JMap(node.instanceInfo),
             DRIVER_INFO := JMap(node.driverInfo),
             DEPLOY_INTERFACE := JAtom(OptionValues.Str(node.deployInterface)),
             INSTANCE_UUID := JAtom(OptionValues.Str(node.instanceUUID))])
  }

  predicate IsNode(doc: JSON) {
    HasSection(doc, INSTANCE_INFO) && HasSection(doc, DRIVER_INFO)
  }

  /** The patch built so far turns the node's document into `now`. */
  ghost predicate Leads(doc: JSON, patch: seq<Operation>, now: JSON) {
    ApplyAll(doc, patch) == Some(now) && IsNode(now)
  }

  /** Text, or text by key: all that provisioning ever wants. */
  predicate Simple(v: GoValue) {
    v.Nil? || v.Scalar? || (v.Map? && v.elemType != Any && forall k | k in v.entries :: v.entries[k].Scalar?)
  }

  ghost predicate AllSimple(settings: map<string, Desired>) {
    forall k | k in settings :: Simple(Deref(settings[k])) && PlainName(k)
  }

  lemma SimpleNeverPanics(name: string, current: map<string, GoValue>, wanted: Desired)
    requires Simple(Deref(wanted))
    ensures Filled(Deref(wanted)) && !MayPanic(name, current, wanted)
  {
    if MayPanic(name, current, wanted) {
      var order: seq<string> :| ClashesIn(order, current[name], Deref(wanted), true);
      TextNeverClashes(order, current[name], Deref(wanted));
    }
  }

  lemma TextNeverClashes(order: seq<string>, current: GoValue, wanted: GoValue)
    requires Simple(wanted) && wanted != Nil
    ensures !ClashesIn(order, current, wanted, true)
  {
  }

  /** SetInstanceInfoOpts and SetDriverInfoOpts: never a panic here, and the patch gains the wanted options. */
  method SetOptions(updater: NodeUpdater, section: string, read: Fields, settings: map<string, Desired>,
                    ghost doc: JSON, ghost now: JSON)
    returns (ghost after: JSON)
    requires section in {INSTANCE_INFO, DRIVER_INFO} && PlainName(section) && AllSimple(settings)
    requires Leads(doc, updater.updates, now)
    requires forall k | k in settings ::
               (k in read <==> k in now.fields[section].fields)
                 && (k in read ==> read[k] == now.fields[section].fields[k])
    modifies updater
    ensures Leads(doc, updater.updates, after)
    ensures after == SetSection(now, section, Override(now.fields[section].fields, settings))
  {
    forall k | k in settings ensures Filled(Deref(settings[k])) && !MayPanic(k, Read(read), settings[k]) {
      SimpleNeverPanics(k, Read(read), settings[k]);
    }
    ghost var before := updater.updates;
    ghost var order;
    var panicked;
    panicked, order := updater.SetSectionUpdateOpts(Read(read), settings, "/" + section, map[]);
    assert !panicked;
    PatchSetsExactlyTheOptions(now, section, read, settings, order);
    ApplyAllConcat(doc, before, Plan(order, Read(read), settings, "/" + section));
    after := SetSection(now, section, Override(now.fields[section].fields, settings));
  }

  function SetField(doc: JSON, name: string, wanted: GoValue): JSON
    requires doc.JMap?
  {
    JMap(SetOne(doc.fields, name, wanted))
  }

  lemma TopLevelSets(doc: JSON, name: string, current: string, wanted: GoValue)
    requires doc.JMap? && PlainName(name) && name in doc.fields && doc.fields[name] == Encode(Str(current))
             && Filled(wanted)
    ensures ApplyAll(doc, OperationFor(name, map[name := Str(current)], wanted, Path("", name))) ==
            Some(SetField(doc, name, wanted))
  {
    PathsNamePlainOptions("", name);
    ApplyOne(doc, Add(Path("", name), wanted));
    ApplyOne(doc, Remove(Path("", name)));
    if wanted != Nil && Same(Str(current), wanted, true) {
      EqualNeedsNoChange(doc.fields[name], wanted);
      assert doc.fields[name := Encode(wanted)] == doc.fields;
    }
  }

  method SetTopLevel(updater: NodeUpdater, name: string, wanted: Desired, current: string, ghost doc: JSON,
                     ghost now: JSON)
    returns (ghost after: JSON)
    requires name in {DEPLOY_INTERFACE, INSTANCE_UUID} && PlainName(name) && Simple(Deref(wanted))
    requires Leads(doc, updater.updates, now) && name in now.fields && now.fields[name] == Encode(Str(current))
    modifies updater
    ensures Leads(doc, updater.updates, after) && after == SetField(now, name, Deref(wanted))
  {
    PlainNames();
    ghost var before := updater.updates;
    SimpleNeverPanics(name, map[name := Str(current)], wanted);
    var panicked := updater.SetTopLevelOpt(name, wanted, Str(current), []);
    ghost var operations := OperationFor(name, map[name := Str(current)], Deref(wanted), Path("", name));
    TopLevelSets(now, name, current, Deref(wanted));
    ApplyAllConcat(doc, before, operations);
    after := SetField(now, name, Deref(wanted));
  }

  lemma PlainNames()
    ensures PlainName(INSTANCE_INFO) && PlainName(DRIVER_INFO) && PlainName(DEPLOY_INTERFACE)
            && PlainName(INSTANCE_UUID)
    ensures INSTANCE_INFO != DRIVER_INFO && DEPLOY_INTERFACE !in {INSTANCE_INFO, DRIVER_INFO, INSTANCE_UUID}
    ensures INSTANCE_UUID !in {INSTANCE_INFO, DRIVER_INFO}
  {
  }

  lemma LiveISOIsSimple(image: Image)
    ensures AllSimple(LiveISOOptions(image)) && "capabilities" !in LiveISOOptions(image)
            && "root_device" !in LiveISOOptions(image)
  {
  }

  lemma DirectIsSimple(image: Image, pullSecret: string)
    requires GetChecksum(image).Checksum?
    ensures AllSimple(DirectOptions(image, pullSecret))
    ensures "capabilities" !in DirectOptions(image, pullSecret) && "root_device" !in DirectOptions(image, pullSecret)
  {
    hide GetChecksum;
  }

  lemma CustomIsSimple(image: Image, pullSecret: string)
    ensures AllSimple(CustomOptions(image, pullSecret))
    ensures "capabilities" !in CustomOptions(image, pullSecret) && "root_device" !in CustomOptions(image, pullSecret)
  {
    hide GetChecksum;
  }

  /** The options are simple, and those for the image and those for the instance are different ones. */
  lemma OptionsAreSimple(data: ProvisionData)
    ensures AllSimple(Options(data)) && AllSimple(InstanceOptions(data))
    ensures forall k | k in Options(data) :: k !in InstanceOptions(data)
  {
    hide GetChecksum, IsLiveISO, LiveISOOptions, DirectOptions, CustomOptions, AllSimple;
    assert AllSimple(map[]) by { NoOptionsAreSimple(); }
    InstanceIsSimple(data);
    LiveISOIsSimple(data.image);
    CustomIsSimple(data.image, data.pullSecret);
    if GetChecksum(data.image).Checksum? {
      DirectIsSimple(data.image, data.pullSecret);
    }
  }

  lemma NoOptionsAreSimple()
    ensures AllSimple(map[])
  {
  }

  lemma InstanceIsSimple(data: ProvisionData)
    ensures AllSimple(InstanceOptions(data))
  {
  }

  function BootDevice(configured: string): map<string, Desired> {
    map["force_persistent_boot_device" := Wanted(if configured == "" then "Default" else configured)]
  }

  lemma BootDeviceIsSimple(configured: string)
    ensures AllSimple(BootDevice(configured))
  {
  }

  /** The boot device setting that goes with the image; a custom deploy has none. */
  function DriverOptions(data: ProvisionData): map<string, Desired> {
    if HasMethod(data.customDeploy) then map[]
    else if IsLiveISO(data.image) then BootDevice(data.liveISOForcePersistentBootDevice)
    else if GetChecksum(data.image).Checksum? then BootDevice(data.directDeployForcePersistentBootDevice)
    else map[]
  }

  /** The deploy interface wanted; None leaves it alone, and nil resets it. */
  function WantedInterface(node: Node, data: ProvisionData): Option<GoValue> {
    if HasMethod(data.customDeploy) then Some(Str("custom-agent"))
    else if IsLiveISO(data.image) then Some(Str("ramdisk"))
    else if GetChecksum(data.image).Checksum? && node.deployInterface in {"ramdisk", "custom-agent"} then Some(Nil)
    else None
  }

  /** The node's document with the options of the instance only. */
  function Begun(node: Node, data: ProvisionData): JSON {
    SetSection(SetField(Document(node), INSTANCE_UUID, Str(data.uid)), INSTANCE_INFO,
               Override(node.instanceInfo, InstanceOptions(data)))
  }

  /** The node's document once the whole patch is applied. */
  function Patched(node: Node, data: ProvisionData): JSON {
    var begun := Begun(node, data);
    var info := SetSection(begun, INSTANCE_INFO, Override(Override(node.instanceInfo, InstanceOptions(data)),
      Options(data)));
    var wanted := WantedInterface(node, data);
    var deploy := if wanted.Some? then SetField(info, DEPLOY_INTERFACE, wanted.value) else info;
    SetSection(deploy, DRIVER_INFO, Override(node.driverInfo, DriverOptions(data)))
  }

  method SetLiveISO(node: Node, data: ProvisionData, updater: NodeUpdater, ghost now: JSON)
    returns (ghost after: JSON)
    requires !HasMethod(data.customDeploy) && IsLiveISO(data.image)
    requires Leads(Document(node), updater.updates, now) && now == Begun(node, data)
    modifies updater
    ensures Leads(Document(node), updater.updates, after) && after == Patched(node, data)
  {
    hide LiveISOOptions, InstanceOptions, IsLiveISO, ApplyAll, DirectOptions, CustomOptions, BootDevice;
    PlainNames();
    OptionsAreSimple(data);
    BootDeviceIsSimple(data.liveISOForcePersistentBootDevice);
    after := SetOptions(updater, INSTANCE_INFO, node.instanceInfo, LiveISOOptions(data.image), Document(node), now);
    after := SetTopLevel(updater, DEPLOY_INTERFACE, Wanted("ramdisk"), node.deployInterface, Document(node), after);
    after := SetOptions(updater, DRIVER_INFO, node.driverInfo, BootDevice(data.liveISOForcePersistentBootDevice),
      Document(node), after);
  }

  method SetDirectDeploy(node: Node, data: ProvisionData, updater: NodeUpdater, ghost now: JSON)
    returns (ghost after: JSON)
    requires !HasMethod(data.customDeploy) && !IsLiveISO(data.image)
    requires Leads(Document(node), updater.updates, now) && now == Begun(node, data)
    modifies updater
    ensures Leads(Document(node), updater.updates, after) && after == Patched(node, data)
  {
    hide GetChecksum, DirectOptions, InstanceOptions, IsLiveISO, ApplyAll, LiveISOOptions, CustomOptions, BootDevice;
    PlainNames();
    if GetChecksum(data.image).ChecksumError? {
      NothingWanted(node, data);
      return now;
    }
    OptionsAreSimple(data);
    BootDeviceIsSimple(data.directDeployForcePersistentBootDevice);
    var options := DirectOptions(data.image, data.pullSecret);
    after := SetOptions(updater, INSTANCE_INFO, node.instanceInfo, options, Document(node), now);
    if node.deployInterface == "ramdisk" || node.deployInterface == "custom-agent" {
      after := SetTopLevel(updater, DEPLOY_INTERFACE, UNWANTED, node.deployInterface, Document(node), after);
    }
    var device := BootDevice(data.directDeployForcePersistentBootDevice);
    after := SetOptions(updater, DRIVER_INFO, node.driverInfo, device, Document(node), after);
  }

  lemma NothingWanted(node: Node, data: ProvisionData)
    requires !HasMethod(data.customDeploy) && !IsLiveISO(data.image) && GetChecksum(data.image).ChecksumError?
    ensures Begun(node, data) == Patched(node, data)
  {
    hide GetChecksum, IsLiveISO, InstanceOptions;
    PlainNames();
    OverrideNothing(node.driverInfo);
    OverrideNothing(Override(node.instanceInfo, InstanceOptions(data)));
    SectionAgain(Begun(node, data), INSTANCE_INFO);
    SectionAgain(Begun(node, data), DRIVER_INFO);
  }

  lemma OverrideNothing(fields: Fields)
    ensures Override(fields, map[]) == fields
  {
  }

  method SetCustomDeploy(node: Node, data: ProvisionData, updater: NodeUpdater, ghost now: JSON)
    returns (ghost after: JSON)
    requires HasMethod(data.customDeploy)
    requires Leads(Document(node), updater.updates, now) && now == Begun(node, data)
    modifies updater
    ensures Leads(Document(node), updater.updates, after) && after == Patched(node, data)
  {
    hide GetChecksum, DirectOptions, InstanceOptions, IsLiveISO, ApplyAll, LiveISOOptions, CustomOptions;
    PlainNames();
    OptionsAreSimple(data);
    var options := CustomOptions(data.image, data.pullSecret);
    after := SetOptions(updater, INSTANCE_INFO, node.instanceInfo, options, Document(node), now);
    after := SetTopLevel(updater, DEPLOY_INTERFACE, Wanted("custom-agent"), node.deployInterface, Document(node),
      after);
    OverrideNothing(node.driverInfo);
    SectionAgain(after, DRIVER_INFO);
  }

  /** getInstanceUpdateOpts: in whatever order the options were visited, the patch applies to the node that it was
      built from and gives exactly the patched document. */
  method GetInstanceUpdateOpts(node: Node, data: ProvisionData) returns (updater: NodeUpdater)
    ensures fresh(updater)
    ensures ApplyAll(Document(node), updater.updates) == Some(Patched(node, data))
  {
    hide InstanceOptions, Options, IsLiveISO;
    updater := new NodeUpdater();
    PlainNames();
    OptionsAreSimple(data);
    ghost var doc := Document(node);
    ghost var now := SetTopLevel(updater, INSTANCE_UUID, Wanted(data.uid), node.instanceUUID, doc, doc);
    now := SetOptions(updater, INSTANCE_INFO, node.instanceInfo, InstanceOptions(data), doc, now);
    if HasMethod(data.customDeploy) {
      now := SetCustomDeploy(node, data, updater, now);
    } else if IsLiveISO(data.image) {
      now := SetLiveISO(node, data, updater, now);
    } else {
      now := SetDirectDeploy(node, data, updater, now);
    }
  }

  /** Writer and reader agree on every node: once the patch for a valid image is applied, whatever the node held, the
      images recognised there are exactly those that are the same as the one written. */
  lemma PatchedNodeHasSameImage(node: Node, data: ProvisionData, b: Image)
    requires !HasMethod(data.customDeploy) && GetChecksum(data.image).Checksum? && GetChecksum(b).Checksum?
    ensures HasSection(Patched(node, data), INSTANCE_INFO)
    ensures HasSameImage(Patched(node, data).fields[INSTANCE_INFO].fields, b) <==> SameImage(data.image, b)
  {
    hide ImageOptions, InstanceOptions, HasSameImage, SameImage, Override, IsLiveISO, GetChecksum, BootDevice;
    PlainNames();
    WrittenImageIsRecognised(Override(node.instanceInfo, InstanceOptions(data)), data.image, data.pullSecret, b);
  }
}
