/** What a patched node holds and which images are recognised there, in terms of the fields of the images alone. */
module ImageFields {
  import opened HostTypes
  import opened OptionValues
  import opened UpdateOpts
  import opened JSONPatch
  import opened Images

  const HASH_TYPES := {"md5", "sha256", "sha512"}
  const NO_TYPE := {"", "auto"}

  predicate Live(image: Image) {
    image.diskFormat == Some("live-iso")
  }

  /** A disk image with a checksum that comes with its type, and one for which Ironic has to find out the type. */
  predicate Typed(image: Image) {
    !IsOCI(image) && image.checksum != "" && image.checksumType in HASH_TYPES
  }

  predicate Untyped(image: Image) {
    !IsOCI(image) && image.checksum != "" && image.checksumType in NO_TYPE
  }

  /** OCI images bring their digests along and take no checksum. */
  predicate Bare(image: Image) {
    IsOCI(image) && image.checksum == ""
  }

  /** The scheme of OCI images, in letters of either case; the dotted capital I is one of them. */
  lemma OCIScheme(image: Image)
    ensures IsOCI(image) <==>
            && |image.url| >= 6 && image.url[0] in {'o', 'O'} && image.url[1] in {'c', 'C'}
            && image.url[2] in {'i', 'I', '\U{0130}'} && image.url[3] == ':' && image.url[4] == image.url[5] == '/'
  {
    if |image.url| >= 6 {
      assert IsOCI(image) <==> forall i | i in {0, 1, 2, 3, 4, 5} :: ToLower(image.url[i]) == OCI_SCHEME[i];
    }
  }

  // ----- the writer -----

  function InfoOf(doc: JSON): Fields
    requires HasSection(doc, INSTANCE_INFO)
  {
    doc.fields[INSTANCE_INFO].fields
  }

  lemma PatchedInfo(node: Node, data: ProvisionData)
    ensures HasSection(Patched(node, data), INSTANCE_INFO)
    ensures InfoOf(Patched(node, data)) == Override(Override(node.instanceInfo, InstanceOptions(data)), Options(data))
  {
    hide Override, InstanceOptions, Options, DriverOptions, GetChecksum, IsLiveISO, IsOCI;
    PlainNames();
  }

  /** The checksum fields of a node to which a disk image or an OCI image has been written: the type and the value of a
      typed checksum, or the bare checksum, or none, and nothing left of the others. */
  predicate HoldsChecksum(info: Fields, image: Image) {
    && (if Typed(image) then IsText(info, "image_os_hash_algo", image.checksumType)
        else "image_os_hash_algo" !in info)
    && (if Typed(image) then IsText(info, "image_os_hash_value", image.checksum)
        else "image_os_hash_value" !in info)
    && (if Untyped(image) then IsText(info, "image_checksum", image.checksum) else "image_checksum" !in info)
  }

  const IMAGE_FIELDS := {"boot_iso", "image_source", "image_checksum", "image_os_hash_algo", "image_os_hash_value",
                         "image_disk_format", "image_pull_secret"}

  predicate SameField(a: Fields, b: Fields, k: string) {
    (k in a <==> k in b) && (k in a ==> a[k] == b[k])
  }

  /** An option that is wanted is held, and one that is not is gone. */
  predicate FieldSet(w: Fields, settings: map<string, Desired>, k: string) {
    k in settings ==>
      && (Deref(settings[k]).Nil? ==> k !in w)
      && (Deref(settings[k]).Scalar? && Deref(settings[k]).atom.Str? ==> IsText(w, k, Deref(settings[k]).atom.s))
  }

  lemma ImageFieldsSet(info: Fields, settings: map<string, Desired>)
    ensures var w := Override(info, settings);
            && FieldSet(w, settings, "boot_iso") && FieldSet(w, settings, "image_source")
            && FieldSet(w, settings, "image_checksum") && FieldSet(w, settings, "image_os_hash_algo")
            && FieldSet(w, settings, "image_os_hash_value") && FieldSet(w, settings, "image_disk_format")
            && FieldSet(w, settings, "image_pull_secret")
  {
  }

  lemma OthersStay(info: Fields, settings: map<string, Desired>)
    ensures forall k | k !in settings :: SameField(Override(info, settings), info, k)
  {
  }

  lemma WrittenFields(info: Fields, image: Image, pullSecret: string)
    ensures var w := Override(info, ImageOptions(image, pullSecret));
            if Live(image) then
              && IsText(w, "boot_iso", image.url)
              && (forall k | k in {"image_source", "image_checksum", "image_os_hash_algo", "image_os_hash_value"} ::
                    k !in w)
              && SameField(w, info, "image_disk_format") && SameField(w, info, "image_pull_secret")
            else if Typed(image) || Untyped(image) || Bare(image) then
              && "boot_iso" !in w && IsText(w, "image_source", image.url) && HoldsChecksum(w, image)
              && (if image.diskFormat.Some? then IsText(w, "image_disk_format", image.diskFormat.value)
                  else "image_disk_format" !in w)
              && (if pullSecret != "" then IsText(w, "image_pull_secret", pullSecret) else "image_pull_secret" !in w)
            else w == info
  {
    hide IsOCI, Override, IsText;
    ImageFieldsSet(info, ImageOptions(image, pullSecret));
    if Live(image) {
      OthersStay(info, ImageOptions(image, pullSecret));
    }
    if ImageOptions(image, pullSecret) == map[] {
      OverrideNothing(info);
    }
  }

  /** The patch that getInstanceUpdateOpts builds without a custom deploy, on any node and whatever it held before: for
      a live ISO the URL to boot; for a disk image with a usable checksum its URL, its checksum in the fields for its
      type, disk format and pull secret; and for any other image the options are left alone. */
  lemma PatchWritesImage(node: Node, data: ProvisionData)
    requires !HasMethod(data.customDeploy)
    ensures HasSection(Patched(node, data), INSTANCE_INFO)
    ensures var (info, image) := (InfoOf(Patched(node, data)), data.image);
            if Live(image) then
              && IsText(info, "boot_iso", image.url)
              && (forall k | k in {"image_source", "image_checksum", "image_os_hash_algo", "image_os_hash_value"} ::
                    k !in info)
              && SameField(info, node.instanceInfo, "image_disk_format")
              && SameField(info, node.instanceInfo, "image_pull_secret")
            else if Typed(image) || Untyped(image) || Bare(image) then
              && "boot_iso" !in info && IsText(info, "image_source", image.url) && HoldsChecksum(info, image)
              && (if image.diskFormat.Some? then IsText(info, "image_disk_format", image.diskFormat.value)
                  else "image_disk_format" !in info)
              && (if data.pullSecret != "" then IsText(info, "image_pull_secret", data.pullSecret)
                  else "image_pull_secret" !in info)
            else forall k | k in IMAGE_FIELDS :: SameField(info, node.instanceInfo, k)
  {
    hide Override, IsOCI, ImageOptions, Patched, IsText;
    PatchedInfo(node, data);
    var begun := Override(node.instanceInfo, InstanceOptions(data));
    WrittenFields(begun, data.image, data.pullSecret);
    InstanceLeavesImage(node, data);
  }

  lemma InstanceLeavesImage(node: Node, data: ProvisionData)
    ensures forall k | k in IMAGE_FIELDS ::
              SameField(Override(node.instanceInfo, InstanceOptions(data)), node.instanceInfo, k)
  {
  }

  // ----- the reader -----

  /** Equal in every field that matters: URL, live ISO or not, and, for disk images, the checksum and its type. */
  predicate SameFields(a: Image, b: Image) {
    && a.url == b.url && (Live(a) <==> Live(b))
    && (Live(a) || IsOCI(a)
        || (a.checksum == b.checksum
            && (a.checksumType == b.checksumType || (a.checksumType in NO_TYPE && b.checksumType in NO_TYPE))))
  }

  /** The image can be written and read: any live ISO with an ordinary URL, any OCI image without a checksum, and any
      other with a checksum of a type that is known. */
  predicate Usable(image: Image) {
    Bare(image) || (!IsOCI(image) && Live(image)) || Typed(image) || Untyped(image)
  }

  lemma UsableMeansChecksum(image: Image)
    ensures Usable(image) <==> GetChecksum(image).Checksum?
  {
    hide IsOCI;
  }

  lemma SameMeansSameFields(a: Image, b: Image)
    requires Usable(a) && Usable(b)
    ensures SameImage(a, b) <==> SameFields(a, b)
  {
    hide IsOCI;
    if a.url == b.url {
      OCIReadsURL(a, b);
    }
  }

  /** After the patch for a usable image, whatever the node held, an image is recognised there if and only if it equals
      the one written in every field that matters; an image that is not usable, if and only if it is an OCI image with
      the same URL, and a live ISO just when the one written is. */
  lemma PatchedNodeRecognises(node: Node, data: ProvisionData, b: Image)
    requires !HasMethod(data.customDeploy) && Usable(data.image)
    ensures HasSection(Patched(node, data), INSTANCE_INFO)
    ensures HasSameImage(InfoOf(Patched(node, data)), b) <==>
            if Usable(b) then SameFields(data.image, b)
            else b.url == data.image.url && IsOCI(b) && (Live(b) <==> Live(data.image))
  {
    hide Override, IsOCI, ImageOptions, Patched, GetChecksum, HasSameImage, SameImage, SameFields, Usable;
    PatchedInfo(node, data);
    UsableMeansChecksum(data.image);
    UsableMeansChecksum(b);
    WrittenImageIsRecognised(Override(node.instanceInfo, InstanceOptions(data)), data.image, data.pullSecret, b);
    if Usable(b) {
      SameMeansSameFields(data.image, b);
    }
  }

  // ----- custom deploys and the rest of the patch -----

  /** A custom deploy gets the image, if there is one, with whatever of its checksum is usable; without an image nothing
      stays of an earlier one. */
  lemma CustomDeployWritesImage(node: Node, data: ProvisionData)
    requires HasMethod(data.customDeploy)
    ensures HasSection(Patched(node, data), INSTANCE_INFO)
    ensures var (info, image) := (InfoOf(Patched(node, data)), data.image);
            && "boot_iso" !in info && "image_checksum" !in info
            && (if image.url == "" then forall k | k in IMAGE_FIELDS :: k !in info
                else
                  && IsText(info, "image_source", image.url)
                  && (if Usable(image) then
                        && IsText(info, "image_os_hash_algo",
                                  if Typed(image) && !Live(image) then image.checksumType else "")
                        && IsText(info, "image_os_hash_value",
                                  if (Typed(image) || Untyped(image)) && !Live(image) then image.checksum else "")
                      else "image_os_hash_algo" !in info && "image_os_hash_value" !in info)
                  && (if image.diskFormat.Some? then IsText(info, "image_disk_format", image.diskFormat.value)
                      else "image_disk_format" !in info)
                  && (if data.pullSecret != "" then IsText(info, "image_pull_secret", data.pullSecret)
                      else "image_pull_secret" !in info))
  {
    hide Patched, IsOCI, Override, IsText, InstanceOptions;
    PatchedInfo(node, data);
    ImageFieldsSet(Override(node.instanceInfo, InstanceOptions(data)), CustomOptions(data.image, data.pullSecret));
  }

  /** Whatever the image, the patch sets the UID, the capabilities of the boot mode and the root device hints; the
      deploy interface that goes with the image, resetting one that does not; and the boot device setting for a live
      ISO or a disk image, and no other setting of the driver. */
  lemma PatchWritesRest(node: Node, data: ProvisionData)
    ensures var (doc, image) := (Patched(node, data), data.image);
            var written := Typed(image) || Untyped(image) || Bare(image);
            && doc.JMap? && HasSection(doc, INSTANCE_INFO) && HasSection(doc, DRIVER_INFO)
            && IsText(doc.fields, INSTANCE_UUID, data.uid)
            && IsMap(InfoOf(doc), "capabilities",
                     if data.bootMode == UEFISecureBoot then map["secure_boot" := "true"] else map[])
            && IsMap(InfoOf(doc), "root_device", data.hints)
            && (if HasMethod(data.customDeploy) then IsText(doc.fields, DEPLOY_INTERFACE, "custom-agent")
                else if Live(image) then IsText(doc.fields, DEPLOY_INTERFACE, "ramdisk")
                else if written && (node.deployInterface == "ramdisk" || node.deployInterface == "custom-agent") then
                  DEPLOY_INTERFACE !in doc.fields
                else IsText(doc.fields, DEPLOY_INTERFACE, node.deployInterface))
            && (if HasMethod(data.customDeploy) || !(Live(image) || written) then
                  doc.fields[DRIVER_INFO].fields == node.driverInfo
                else
                  var device := if Live(image) then data.liveISOForcePersistentBootDevice
                                else data.directDeployForcePersistentBootDevice;
                  doc.fields[DRIVER_INFO].fields ==
                  node.driverInfo["force_persistent_boot_device" :=
                                  JAtom(OptionValues.Str(if device != "" then device else "Default"))])
  {
    hide IsOCI, Options, Override, InstanceOptions, BootDevice, GetChecksum, IsMap, Patched;
    UsableMeansChecksum(data.image);
    PatchedInfo(node, data);
    PatchedSections(node, data);
    InstanceWritten(node, data);
    OverrideNothing(node.driverInfo);
    DeviceWritten(node.driverInfo, data.liveISOForcePersistentBootDevice);
    DeviceWritten(node.driverInfo, data.directDeployForcePersistentBootDevice);
  }

  lemma PatchedSections(node: Node, data: ProvisionData)
    ensures var (doc, wanted) := (Patched(node, data), WantedInterface(node, data));
            && HasSection(doc, DRIVER_INFO) && doc.fields[DRIVER_INFO].fields ==
            Override(node.driverInfo, DriverOptions(data))
            && IsText(doc.fields, INSTANCE_UUID, data.uid)
            && (if wanted == Some(Nil) then DEPLOY_INTERFACE !in doc.fields
                else
                  && DEPLOY_INTERFACE in doc.fields
                  && doc.fields[DEPLOY_INTERFACE] ==
                     Encode(if wanted.Some? then wanted.value else Images.Str(node.deployInterface)))
  {
    hide WantedInterface, DriverOptions, Options, Override, InstanceOptions;
    PlainNames();
  }

  predicate IsMap(info: Fields, key: string, entries: map<string, string>) {
    key in info && info[key] == JMap(map k | k in entries :: JAtom(OptionValues.Str(entries[k])))
  }

  lemma DeviceWritten(info: Fields, device: string)
    ensures Override(info, BootDevice(device)) ==
            info["force_persistent_boot_device" :=
                 JAtom(OptionValues.Str(if device != "" then device else "Default"))]
  {
  }

  lemma InstanceWritten(node: Node, data: ProvisionData)
    ensures var w := Override(Override(node.instanceInfo, InstanceOptions(data)), Options(data));
            && IsMap(w, "capabilities",
                     if data.bootMode == UEFISecureBoot then map["secure_boot" := "true"] else map[])
            && IsMap(w, "root_device", data.hints)
  {
    hide Options, Override;
    OptionsAreSimple(data);
    FirstStays(node.instanceInfo, InstanceOptions(data), Options(data), "capabilities");
    FirstStays(node.instanceInfo, InstanceOptions(data), Options(data), "root_device");
    StringsEncoded(InstanceCapabilities(data.bootMode));
    StringsEncoded(data.hints);
  }

  lemma FirstStays(info: Fields, first: map<string, Desired>, second: map<string, Desired>, k: string)
    requires k in first && k !in second && Deref(first[k]) != Nil
    ensures k in Override(Override(info, first), second)
    ensures Override(Override(info, first), second)[k] == Encode(Deref(first[k]))
  {
  }

  lemma StringsEncoded(m: map<string, string>)
    ensures Encode(Images.Strings(m)) == JMap(map k | k in m :: JAtom(OptionValues.Str(m[k])))
  {
  }
}
