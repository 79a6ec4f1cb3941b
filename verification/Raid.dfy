/** Building RAID clean steps (pkg/provisioner/ironic/raid.go). */
module Raid {
  import opened HostTypes

  const NO_RAID_INTERFACE := "no-raid"
  const SOFTWARE_RAID_INTERFACE := "agent"

  datatype CleanStep = CleanStep(interface: string, step: string)

  const DELETE_CONFIGURATION := CleanStep("raid", "delete_configuration")
  const ERASE_METADATA := CleanStep("deploy", "erase_devices_metadata")
  const CREATE_CONFIGURATION := CleanStep("raid", "create_configuration")

  datatype StepsResult = StepsError | Steps(steps: seq<CleanStep>)

  /** CheckRAIDInterface: None is the error. */
  function CheckInterface(interface: string, target: Option<RAIDConfig>, actual: Option<RAIDConfig>): Option<string> {
    if target.None? then Some(interface)
    else if interface in {NO_RAID_INTERFACE, SOFTWARE_RAID_INTERFACE} && Len(target.value.hardware) != 0 then None
    else if Len(target.value.software) != 0 then Some(SOFTWARE_RAID_INTERFACE)
    else if actual.Some? && Len(actual.value.software) != 0 then Some(SOFTWARE_RAID_INTERFACE)
    else Some(interface)
  }

  // ----- what the steps are for -----

  /** The node has a hardware RAID interface, the target says something about hardware volumes (even that
      there are none), nothing about software ones, and the node is not known to be in that state already. */
  predicate HardwareRebuild(interface: string, target: Option<RAIDConfig>, actual: Option<RAIDConfig>) {
    && interface != NO_RAID_INTERFACE
    && target.Some? && target.value.software.None? && target.value.hardware.Some?
    && !(actual.Some? && actual.value.hardware == target.value.hardware)
  }

  /** The target lists software volumes (possibly none of them), and software volumes exist on one side at
      least, and the two sides do not list the same ones. */
  predicate SoftwareRebuild(target: Option<RAIDConfig>, actual: Option<RAIDConfig>) {
    && target.Some? && target.value.software.Some?
    && !(actual.Some? && actual.value.software == target.value.software)
    && (Len(target.value.software) != 0 || (actual.Some? && Len(actual.value.software) != 0))
  }

  /** What BuildRAIDCleanSteps is for: bring the node from `actual` to `target`, deleting before creating,
      creating only what has volumes, and touching nothing when nothing has to change. */
  function CleanSteps(interface: string, target: Option<RAIDConfig>, actual: Option<RAIDConfig>): StepsResult {
    if CheckInterface(interface, target, actual).None? then StepsError
    else if SoftwareRebuild(target, actual) then
      Steps([DELETE_CONFIGURATION, ERASE_METADATA] +
            if Len(target.value.software) != 0 then [CREATE_CONFIGURATION] else [])
    else if HardwareRebuild(interface, target, actual) then
      Steps([DELETE_CONFIGURATION] + if Len(target.value.hardware) != 0 then [CREATE_CONFIGURATION] else [])
    else Steps([])
  }

  // ----- what the steps do to a node -----

  /** The volumes of a node, and whether disks still carry the metadata of software volumes that were deleted. */
  datatype Disks = Disks(hardware: seq<Volume>, software: seq<Volume>, leftovers: bool)

  function Volumes(volumes: Option<seq<Volume>>): seq<Volume> {
    if volumes.Some? then volumes.value else []
  }

  /** Deleting and creating are up to the RAID interface of the node: the agent's is for software volumes. Creating adds
      to what is there, and erasing metadata takes software volumes with it. */
  function Effect(step: CleanStep, interface: string, wanted: RAIDConfig, d: Disks): Disks {
    if step == DELETE_CONFIGURATION then
      if interface == SOFTWARE_RAID_INTERFACE then d.(software := [], leftovers := d.leftovers || d.software != [])
      else d.(hardware := [])
    else if step == ERASE_METADATA then d.(software := [], leftovers := false)
    else if interface == SOFTWARE_RAID_INTERFACE then d.(software := d.software + Volumes(wanted.software))
    else d.(hardware := d.hardware + Volumes(wanted.hardware))
  }

  function RunSteps(steps: seq<CleanStep>, interface: string, wanted: RAIDConfig, d: Disks): Disks {
    if steps == [] then d else RunSteps(steps[1..], interface, wanted, Effect(steps[0], interface, wanted, d))
  }

  /** The half of a configuration that the steps are built from: the other is cleared before the interface is set. */
  function HalfOf(target: RAIDConfig, config: RAIDConfig): RAIDConfig {
    if target.software.Some? then config.(hardware := None) else config.(software := None)
  }

  /** The interface that the node gets for the steps. */
  function StepsInterface(interface: string, target: RAIDConfig, actual: Option<RAIDConfig>): Option<string> {
    CheckInterface(interface, Some(HalfOf(target, target)),
                   if actual.Some? then Some(HalfOf(target, actual.value)) else None)
  }

  /** The node has what is on record, in the half that the target speaks of, and no leftovers. */
  predicate AsRecorded(target: RAIDConfig, actual: Option<RAIDConfig>, d: Disks) {
    var config := if actual.Some? then actual.value else EMPTY_RAID;
    !d.leftovers && if target.software.Some? then d.software == Volumes(config.software)
                    else d.hardware == Volumes(config.hardware)
  }

  /** Running the steps leaves a node with exactly the volumes of the half that the target speaks of, software if it
      says anything about it, and with its other volumes as they were and no leftovers: whatever the node had, if any
      step is run, and otherwise if it had what is on record. Only interfaces without hardware RAID are different: with
      no RAID at all nothing happens, and the agent takes an empty list of hardware volumes for software ones. */
  lemma StepsReachTarget(interface: string, target: RAIDConfig, actual: Option<RAIDConfig>, d: Disks)
    requires CleanSteps(interface, Some(target), actual).Steps?
    requires CleanSteps(interface, Some(target), actual).steps != [] || AsRecorded(target, actual, d)
    ensures StepsInterface(interface, target, actual).Some?
    ensures var steps := CleanSteps(interface, Some(target), actual).steps;
            var after := RunSteps(steps, StepsInterface(interface, target, actual).value, target, d);
            && (target.software.Some? ==> after == Disks(d.hardware, target.software.value, false))
            && (target.software.None? ==>
                  if target.hardware.None? || interface == NO_RAID_INTERFACE then after == d
                  else if interface == SOFTWARE_RAID_INTERFACE then
                    after == if steps == [] then d
                             else d.(software := [], leftovers := d.leftovers || d.software != [])
                  else after == d.(hardware := target.hardware.value))
  {
    hide Effect;
    if target.software.Some? {
      SoftwareSteps(target, d);
      assert [DELETE_CONFIGURATION, ERASE_METADATA] + [CREATE_CONFIGURATION] ==
             [DELETE_CONFIGURATION, ERASE_METADATA, CREATE_CONFIGURATION];
      assert [DELETE_CONFIGURATION, ERASE_METADATA] + [] == [DELETE_CONFIGURATION, ERASE_METADATA];
    } else {
      HardwareSteps(target, interface, d);
      assert [DELETE_CONFIGURATION] + [CREATE_CONFIGURATION] == [DELETE_CONFIGURATION, CREATE_CONFIGURATION];
      assert [DELETE_CONFIGURATION] + [] == [DELETE_CONFIGURATION];
    }
  }

  lemma RunThree(a: CleanStep, b: CleanStep, c: CleanStep, interface: string, wanted: RAIDConfig, d: Disks)
    ensures RunSteps([a], interface, wanted, d) == Effect(a, interface, wanted, d)
    ensures RunSteps([a, b], interface, wanted, d) == RunSteps([b], interface, wanted, Effect(a, interface, wanted, d))
    ensures RunSteps([a, b, c], interface, wanted, d) ==
            RunSteps([b, c], interface, wanted, Effect(a, interface, wanted, d))
  {
    assert [a, b][1..] == [b] && [a, b, c][1..] == [b, c];
  }

  lemma SoftwareSteps(target: RAIDConfig, d: Disks)
    ensures var cleared := Disks(d.hardware, [], false);
            && RunSteps([DELETE_CONFIGURATION, ERASE_METADATA], SOFTWARE_RAID_INTERFACE, target, d) == cleared
            && RunSteps([DELETE_CONFIGURATION, ERASE_METADATA, CREATE_CONFIGURATION], SOFTWARE_RAID_INTERFACE, target,
                        d) == cleared.(software := Volumes(target.software))
  {
    var deleted := Effect(DELETE_CONFIGURATION, SOFTWARE_RAID_INTERFACE, target, d);
    var cleared := Effect(ERASE_METADATA, SOFTWARE_RAID_INTERFACE, target, deleted);
    RunThree(DELETE_CONFIGURATION, ERASE_METADATA, CREATE_CONFIGURATION, SOFTWARE_RAID_INTERFACE, target, d);
    RunThree(ERASE_METADATA, CREATE_CONFIGURATION, CREATE_CONFIGURATION, SOFTWARE_RAID_INTERFACE, target, deleted);
    RunThree(CREATE_CONFIGURATION, CREATE_CONFIGURATION, CREATE_CONFIGURATION, SOFTWARE_RAID_INTERFACE, target,
             cleared);
  }

  lemma HardwareSteps(target: RAIDConfig, interface: string, d: Disks)
    ensures RunSteps([DELETE_CONFIGURATION], interface, target, d) ==
            if interface == SOFTWARE_RAID_INTERFACE then
              d.(software := [], leftovers := d.leftovers || d.software != [])
            else d.(hardware := [])
    ensures interface != SOFTWARE_RAID_INTERFACE ==>
              RunSteps([DELETE_CONFIGURATION, CREATE_CONFIGURATION], interface, target, d) ==
              d.(hardware := Volumes(target.hardware))
  {
    var deleted := Effect(DELETE_CONFIGURATION, interface, target, d);
    RunThree(DELETE_CONFIGURATION, CREATE_CONFIGURATION, CREATE_CONFIGURATION, interface, target, d);
    RunThree(CREATE_CONFIGURATION, CREATE_CONFIGURATION, CREATE_CONFIGURATION, interface, target, deleted);
  }

  /** Volumes are refused only if they are hardware volumes on an interface that has none; and no step is run if and
      only if the target says nothing, or the software volumes it lists are those on record, or, where it speaks of
      hardware only, the interface has none or the list on record is the same. */
  lemma StepsOnlyIfNeeded(interface: string, target: Option<RAIDConfig>, actual: Option<RAIDConfig>)
    ensures CleanSteps(interface, target, actual).StepsError? <==>
            && target.Some? && Volumes(target.value.hardware) != []
            && (interface == NO_RAID_INTERFACE || interface == SOFTWARE_RAID_INTERFACE)
    ensures CleanSteps(interface, target, actual).Steps? ==>
              var config := if actual.Some? then actual.value else EMPTY_RAID;
              CleanSteps(interface, target, actual).steps == [] <==>
                || target.None? || target == Some(EMPTY_RAID)
                || (target.value.software.Some? && Volumes(config.software) == target.value.software.value)
                || (target.value.software.None? && (interface == NO_RAID_INTERFACE
                                                    || config.hardware == target.value.hardware))
  {
  }

  // ----- the source's procedure -----

  /** A RAID configuration behind a Go pointer. */
  class RAIDConfigRef {
    var hardware: Option<seq<Volume>>
    var software: Option<seq<Volume>>

    constructor (config: RAIDConfig)
      ensures Value() == config
    {
      hardware, software := config.hardware, config.software;
    }

    function Value(): RAIDConfig
      reads this
    {
      RAIDConfig(hardware, software)
    }
  }

  function Deref(ref: RAIDConfigRef?): Option<RAIDConfig>
    reads ref
  {
    if ref == null then None else Some(ref.Value())
  }

  /** BuildRAIDCleanSteps: clears, in place, the half of both arguments it does not compare. */
  method BuildRAIDCleanSteps(interface: string, target: RAIDConfigRef?, actual: RAIDConfigRef?)
    returns (result: StepsResult)
    requires target != null ==> target != actual
    modifies target, actual
    ensures result == CleanSteps(interface, old(Deref(target)), old(Deref(actual)))
    ensures target != null ==>
              && target.hardware in {None, old(target.hardware)} && target.software in {None, old(target.software)}
    ensures actual != null ==>
              && actual.hardware in {None, old(actual.hardware)} && actual.software in {None, old(actual.software)}
  {
    if CheckInterface(interface, Deref(target), Deref(actual)) == None {
      return StepsError;
    }
    var steps: seq<CleanStep> := [];
    if target != null && target.software != None {
      target.hardware := None;
      if actual != null {
        actual.hardware := None;
      }
      if Deref(target) == Deref(actual) {
        return Steps(steps);
      }
      if Len(target.software) == 0 && (actual == null || Len(actual.software) == 0) {
        return Steps(steps);
      }
      steps := steps + [DELETE_CONFIGURATION, ERASE_METADATA];
      if Len(target.software) == 0 {
        return Steps(steps);
      }
      steps := steps + [CREATE_CONFIGURATION];
      return Steps(steps);
    }
    if interface == NO_RAID_INTERFACE || target == null || target.hardware == None {
      return Steps(steps);
    }
    target.software := None;
    if actual != null {
      actual.software := None;
    }
    if Deref(target) == Deref(actual) {
      return Steps(steps);
    }
    steps := steps + [DELETE_CONFIGURATION];
    if Len(target.hardware) == 0 {
      return Steps(steps);
    }
    steps := steps + [CREATE_CONFIGURATION];
    return Steps(steps);
  }
}
