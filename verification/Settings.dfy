/** The host provisioning settings: copied from spec to status before cleaning, forgotten after
    deprovisioning (internal/controller/metal3.io/baremetalhost_controller.go). */
module Settings {
  import opened HostTypes
  import opened Raid

  /** The table behind profile.GetProfile: the hints of each known hardware profile. */
  type Profiles = map<string, Hints>

  /** What the settings are derived from: the spec and the hints of the hardware profile. */
  datatype Source = Source(spec: Spec, profileHints: Option<Hints>)

  function SourceOf(profiles: Profiles, spec: Spec, profile: string): Source {
    Source(spec, if profile in profiles then Some(profiles[profile]) else None)
  }

  /** The hints that updateRootDeviceHints stores: the user's, or else those of the hardware profile. */
  function WantedHints(source: Source): Option<Hints> {
    if source.spec.rootDeviceHints.Some? then source.spec.rootDeviceHints else source.profileHints
  }

  /** No RAID, or an empty configuration, asks to keep hardware volumes and drop software ones. */
  function TargetRAID(wanted: Option<RAIDConfig>, current: Option<RAIDConfig>): Option<RAIDConfig> {
    if wanted in {None, Some(EMPTY_RAID)} && current.Some? then
      Some(RAIDConfig(if Len(current.value.hardware) != 0 then current.value.hardware else None, Some([])))
    else wanted
  }

  /** saveHostProvisioningSettings, when there are hints to save. */
  function Save(source: Source, settings: HostSettings): HostSettings
    requires WantedHints(source).Some?
  {
    HostSettings(WantedHints(source), TargetRAID(source.spec.raid, settings.raid), source.spec.firmware)
  }

  /** clearHostProvisioningSettings */
  function Clear(settings: HostSettings): HostSettings {
    HostSettings(None, if settings.raid.Some? then Some(settings.raid.value.(software := None)) else None, None)
  }

  predicate Fixpoint(source: Source, settings: HostSettings)
    requires WantedHints(source).Some?
  {
    Save(source, settings) == settings
  }

  /** The source's procedure: field by field, with a flag for what changed. */
  class SettingsRecord {
    var settings: HostSettings

    constructor (settings: HostSettings)
      ensures this.settings == settings
    {
      this.settings := settings;
    }

    method UpdateRootDeviceHints(source: Source) returns (dirty: bool, ok: bool)
      modifies this
      ensures ok <==> WantedHints(source).Some?
      ensures settings == if ok then old(settings).(rootDeviceHints := WantedHints(source)) else old(settings)
      ensures dirty <==> settings != old(settings)
    {
      dirty, ok := false, true;
      var hintSource := source.spec.rootDeviceHints;
      if hintSource == None {
        if source.profileHints == None {
          return false, false;
        }
        hintSource := source.profileHints;
      }
      if hintSource != settings.rootDeviceHints {
        settings := settings.(rootDeviceHints := hintSource);
        dirty := true;
      }
    }

    /** The dirty flag reports exactly whether the settings changed; without hints nothing does. */
    method SaveHostProvisioningSettings(source: Source) returns (dirty: bool, ok: bool)
      modifies this
      ensures ok <==> WantedHints(source).Some?
      ensures settings == if ok then Save(source, old(settings)) else old(settings)
      ensures dirty <==> settings != old(settings)
    {
      dirty, ok := UpdateRootDeviceHints(source);
      if !ok {
        return;
      }
      var specRAID := source.spec.raid;
      if specRAID == None || specRAID == Some(EMPTY_RAID) {
        if settings.raid != None {
          var volumes := settings.raid.value.hardware;
          specRAID := Some(RAIDConfig(if Len(volumes) != 0 then volumes else None, Some([])));
        }
      }
      if settings.raid != specRAID {
        settings := settings.(raid := specRAID);
        dirty := true;
      }
      if settings.firmware != source.spec.firmware {
        settings := settings.(firmware := source.spec.firmware);
        dirty := true;
      }
    }

    method ClearHostProvisioningSettings()
      modifies this
      ensures settings == Clear(old(settings))
    {
      settings := settings.(rootDeviceHints := None);
      if settings.raid != None {
        settings := settings.(raid := Some(settings.raid.value.(software := None)));
      }
      settings := settings.(firmware := None);
    }
  }

  /** Saving reaches a fixpoint in two rounds, and the second round changes something exactly when the spec
      holds an empty, non-nil RAID configuration and the status none. */
  lemma SaveStabilises(source: Source, settings: HostSettings)
    requires WantedHints(source).Some?
    ensures var once := Save(source, settings);
            && (Fixpoint(source, once) <==> !(source.spec.raid == Some(EMPTY_RAID) && settings.raid == None))
            && Fixpoint(source, Save(source, once))
  {
  }

  /** The RAID configuration on record is the one asked for; or none is, and software volumes are to be dropped and
      hardware volumes kept. */
  predicate RAIDApplied(wanted: Option<RAIDConfig>, current: Option<RAIDConfig>) {
    if wanted.None? || (wanted.value.hardware.None? && wanted.value.software.None?) then
      if current.None? then wanted.None?
      else current.value.software == Some([]) && current.value.hardware != Some([])
    else current == wanted
  }

  /** Nothing has to be saved if and only if the hints are the user's, or else the profile's, the firmware settings are
      those of the spec and the RAID configuration is applied. */
  lemma FixpointMeans(source: Source, settings: HostSettings)
    requires WantedHints(source).Some?
    ensures Fixpoint(source, settings) <==>
            && settings.rootDeviceHints ==
               (if source.spec.rootDeviceHints.Some? then source.spec.rootDeviceHints else source.profileHints)
            && settings.firmware == source.spec.firmware && RAIDApplied(source.spec.raid, settings.raid)
  {
    if settings.raid.Some? && settings.raid.value.hardware.Some? {
      assert |settings.raid.value.hardware.value| == 0 <==> settings.raid.value.hardware.value == [];
    }
  }

  /** Hardware RAID survives reprovisioning and software RAID is rebuilt: after the settings of a host at the
      fixpoint are cleared, preparing it again with the same spec asks for no RAID step at all, unless the spec
      lists software volumes, and then for delete, erase and create. */
  lemma RAIDAfterReprovisioning(interface: string, source: Source, settings: HostSettings)
    requires WantedHints(source).Some? && Fixpoint(source, settings)
    requires CheckInterface(interface, Save(source, Clear(settings)).raid, Clear(settings).raid).Some?
    ensures CleanSteps(interface, Save(source, Clear(settings)).raid, Clear(settings).raid) ==
            Steps(if source.spec.raid.Some? && Len(source.spec.raid.value.software) != 0
                  then [DELETE_CONFIGURATION, ERASE_METADATA, CREATE_CONFIGURATION] else [])
  {
  }
}
