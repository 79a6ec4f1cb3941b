# A model of the BareMetalHost life cycle

This project models, in Dafny, how the Bare Metal Operator takes a BareMetalHost through its life: the state machine of
the host controller, the actions it calls, and the pieces of Ironic-side logic those actions rest on. It proves what
each step keeps and what holds over whole runs of a new host.

A reconcile is one step. It reads a persisted status and an environment, which holds the spec, the annotations, the
secret, the clock and an answer for every call to the provisioner and to the API server. The environment is arbitrary:
it may be another one in every round. The step produces a working copy of the status, a result and a trace of
observable events, and the API server keeps the working copy or not.

| file | what it models |
|---|---|
| Types, ActionResult | the API types with their predicates, and the results of actions |
| Actions, StateMachine | registration, the actions and the state machine, as functions from step to step |
| Controller | the same as the source has them: an object whose methods update the status in place, proved against those functions |
| Effects, Machine, Registration, Pass | summaries of each action, each handler, registration and a whole pass |
| Decisions, Records, Reporting | where a pass takes the host, what it records and what it reports, in terms of what it reads |
| Invariants, Lifecycle, Inspection, Traces, Timing, Deletion, DeletionEnds, Preparation | what holds of passes and of whole runs |
| PowerOn, PowerControl | when power is switched, and that it reaches what is asked for |
| Enrolment, RefusedDeletion, SilentFailure | runs of a new host that show where the bounds on deletion and preparation end |
| Settings, Raid, Prepare, DataImage | provisioning settings, RAID clean steps, manual cleaning, the data-image gate |
| Capacity, NodeDeletion | the limit on busy hosts, and removing a node from Ironic |
| Strings, Capabilities | the capabilities string |
| OptionValues, UpdateOpts, JSONPatch, Images, ImageFields | the patch builder, RFC 6902, and writing and recognising images |
| PreprovisioningImages | the image build cache |
| LabelSelectors, HostClaims, ClaimProtocol | choosing a host for a claim, and many claims doing so at once |

`dafny verify dfyconfig.toml` checks everything.

## What the model says about the code

Some statements that one would expect are false of the code. Where a condition decides, it is proved as an equivalence.

- Prepare can report completion for settings that it never applied: a failed cleaning for which Ironic records no error
  text looks like completion (`IronicPrepare.CompletionMeansStarted`). The settings are then applied if and only if
  they were before (`Preparation.PreparingEndsWithSavedSettings`), and a host can go back and forth between Preparing
  and Available without end (`SilentFailure.SilentFailuresAreUnbounded`).
- A host that may not be powered off but has a lasting reboot annotation, or is not to be online, never settles: it is
  rebooted again in every round (`PowerControl.RebootedForever`), and only such hosts (`PowerControl.PowerConverges`).
- On the RAID interface agent, an empty list of hardware volumes deletes software volumes (`Raid.StepsReachTarget`).
- Building a patch can panic, if and only if some desired value has a generic list or map directly inside it, in a list
  after bare values only (`UpdateOpts.SectionPanicsExactlyIfVulnerable`): a null on the node in its place is enough.
- A nil list or map counts as equal to an empty one, although its JSON is null. So the patch sets exactly the options if
  and only if no desired value holds a nil container, or would be written again anyway, and no name needs escaping,
  which the builder does not do (`JSONPatch.PatchIsExactIfOrderly`).
- Typed containers are recognised on a second run at every second level of nesting, not just the outermost
  (`OptionValues.EqualToItsWireForm`).
- Rewriting the capabilities for an unknown boot mode leaves an empty item behind (`Capabilities.LastWriterWins`).
- setUnready and setError compare a status with a pointer to a pointer, and so always report a change.
- Refusals of capacity prolong a deletion: each makes room for one more registration failure, and no more
  (`Deletion.DeletionFailuresAreBounded`, `RefusedDeletion.RefusalsProlongDeletion`).
- The capacity check is apart from its effect: hosts admitted at once can exceed the limit, by their number less one
  (`Capacities.AdmissionKeepsLimit`, `Capacities.OvershootIsReached`).
- For an image whose own checksum is unusable, an OCI image is still recognised by its URL
  (`Images.WrittenImageIsRecognised`).
- A claim can book a second host from a list that is out of date, if and only if the list does not show the host it holds
  as it is, and offers it one that is up to date (`ClaimProtocol.ListsBookSecondExactlyIfHarmful`).
- Of the operators for labels, DoesNotExist is lowered to a name that the label library does not know, and refused; the
  others mean what they say (`LabelSelectors.SelectorsMeanWhatTheySay`).

## Model

| member | source | states |
|---|---|---|
| `Deletion.DeletionFailuresAreBounded` | internal/controller/metal3.io/host_state_machine.go:570-636 | With a deletion requested and nobody asking for the host to be detached, any stretch of any run of a new host records at most 4 failures in Deprovisioning and one more for each refusal of capacity there, at most 4 in PoweringOffBeforeDelete and none in any other state, whatever registration, adoption, deprovisioning and power-off failures occur |
| `DeletionEnds.DeletionEnds` | internal/controller/metal3.io/host_state_machine.go:570-636 | From any point of any run, as long as spec, profiles and secret stay the same, capacity is there, nobody asks for the host to be detached or rebooted, calls are answered with success or failure and rounds are saved, the finalizer is gone after a number of rounds that depends on state and error count only |
| `DeletionEnds.RoundGoesOn` | internal/controller/metal3.io/host_state_machine.go:177-266 | Each such round removes the finalizer or brings the deletion closer to its end |
| `Deletion.RunSpends` | internal/controller/metal3.io/host_state_machine.go:222-266 | Between any two points of a run, the failures recorded in each of the two states plus the budget left there never exceed the budget at the start plus, in Deprovisioning, the refusals |
| `Deletion.RoundSpends` | internal/controller/metal3.io/baremetalhost_controller.go:361-381 | One round pays for each failure it saves from the budget of the state: 4 less the error count, or 1 above three errors, or 0 once a registration error is pending there; a refusal of capacity in Deprovisioning adds one at most |
| `RefusedDeletion.RefusalsProlongDeletion` | internal/controller/metal3.io/host_state_machine.go:151-175 | The bound is reached: for every n there is a run of a new host with n refusals and 4 + n failures saved in Deprovisioning |
| `Deletion.RankNeverDecreases` | internal/controller/metal3.io/host_state_machine.go:222-266 | Once a deletion is requested, the rank (others, Deprovisioning, PoweringOffBeforeDelete, Deleting) never decreases along a run |
| `Pass.DeletionIsolates` | internal/controller/metal3.io/host_state_machine.go:222-333 | When a host being deleted gets past the deletion and detachment guards, it is in one of the three deletion states, under any annotations |
| `Traces.HandlersRunInTurn` | internal/controller/metal3.io/host_state_machine.go:177-210 | A pass runs only the handler of the state it found; of a host being deleted only those of the deletion states; and after registration, in any state but Registering, only if the good credentials read at the start match the secret and no registration error is pending |
| `Registration.HandlersNeedCommittedCredentials` | internal/controller/metal3.io/host_state_machine.go:335-381 | A handler is reached only with the working copy agreeing with the server and, where registration is needed, with committed credentials: otherwise the register metric is open and closing it ends the round |
| `Registration.RegisterCommits` | internal/controller/metal3.io/baremetalhost_controller.go:851-1019 | registerHost changes the good credentials only when it succeeds, and then they match the secret; a success that reports nothing has changed only credentials and the node ID |
| `Lifecycle.CommitsAreSaved` | internal/controller/metal3.io/baremetalhost_controller.go:996-1018 | Whenever a pass that ends without an error changes the good credentials, they match the secret and the result is dirty |
| `Lifecycle.NothingIsLost` | internal/controller/metal3.io/host_state_machine.go:100-149 | A pass that changes the state ends dirty; every result but deleteComplete has the host looked at again; deleteComplete comes only from Deleting and without the finalizer |
| `ActionResults.OnlyDeletionStops` | internal/controller/metal3.io/action_result.go:24-154 | Of all results, only deleteComplete neither requeues, nor waits, nor carries an error |
| `ActionResults.DelaysMean` | internal/controller/metal3.io/action_result.go:24-154 | When each result has the host looked at again |
| `ActionResults.BackoffBounds` | internal/controller/metal3.io/action_result.go:118-145 | The n-th failure in a row waits more than half of and at most 2^n minutes, n counted up to 9 |
| `Invariants.ReachableInvariant` | internal/controller/metal3.io/host_state_machine.go:63-149 | In every reachable state: something is on record as deployed only in Provisioned or a deletion state or Deprovisioning; the inspect, provision and deprovision metrics are open exactly in their states and the register metric at least in Registering; and OperationalStatus error, ErrorType and error message fit together |
| `Invariants.RoundKeepsInvariant` | internal/controller/metal3.io/baremetalhost_controller.go:117-296 | One reconcile keeps the three invariants, whatever the spec, the annotations, the provisioner and the API server do |
| `Invariants.MachineKeepsRecord` | internal/controller/metal3.io/baremetalhost_controller.go:1397-1410 | A pass keeps the record invariant, although capacity can veto a transition after the handler has changed the host |
| `Invariants.MachineKeepsMetrics` | internal/controller/metal3.io/host_state_machine.go:63-85 | A pass keeps the metrics open exactly as the state says |
| `Invariants.MachineKeepsHealth` | internal/controller/metal3.io/baremetalhost_controller.go:507-533 | A pass keeps OperationalStatus and ErrorType in line |
| `Pass.AttemptAttempted` | internal/controller/metal3.io/host_state_machine.go:177-210 | Before the deferred update, a pass stays put or completes with an allowed successor, records at most one failure, and ends with a result of the allowed kinds |
| `Pass.DeferredUpdate` | internal/controller/metal3.io/host_state_machine.go:100-149 | The deferred update either vetoes the transition, delayed or with an error and leaving state, metrics and settings alone, or enters the chosen state with the metrics turned |
| `Machine.HandlerHandled` | internal/controller/metal3.io/host_state_machine.go:383-640 | Every handler moves only along the life cycle, changes the deployed record only where it should, and accounts for its failures |
| `Lifecycle.HandlerChose` | internal/controller/metal3.io/host_state_machine.go:177-210 | A transition of a host that is not being deleted is the choice of its handler, run on a copy that differs from the server at most in credentials and node ID |
| `Lifecycle.ProvisioningStartsUncancelled` | internal/controller/metal3.io/host_state_machine.go:465-558 | A host that goes from Available to Provisioning is not cancelled with the same spec and has no error pending |
| `Lifecycle.ProvisionedLandsUncancelled` | internal/controller/metal3.io/host_state_machine.go:508-558 | A host that goes from Provisioning to Provisioned lands where provisioning is not cancelled |
| `Lifecycle.AdoptedLandsUncancelled` | internal/controller/metal3.io/host_state_machine.go:436-454 | A host that leaves ExternallyProvisioned is deprovisioned next if and only if the spec names neither an image nor a custom deploy |
| `Lifecycle.OnlyErrorsAbandonProvisioning` | internal/controller/metal3.io/host_state_machine.go:546-558 | Provisioning is abandoned only for an error or for a spec that asks for nothing |
| `Lifecycle.NothingRecorded` | apis/metal3.io/v1alpha1/baremetalhost_types.go:979-1035 | With nothing on record, provisioning is cancelled exactly when the spec asks for nothing, and recording what it asks for does not cancel it |
| `Lifecycle.UnmanagedHostWaits` | internal/controller/metal3.io/baremetalhost_controller.go:613-618 | Without BMC details an unmanaged host is looked at every ten minutes and left as it is |
| `Inspection.RegistrationDecides` | internal/controller/metal3.io/host_state_machine.go:404-418 | A host that is not being deleted leaves Registering for ExternallyProvisioned if and only if the spec says so, else for Preparing if and only if spec or annotation disable inspection, and else for Inspecting |
| `Inspection.NoWayAroundInspection` | internal/controller/metal3.io/host_state_machine.go:404-427 | In every run of a new host that gets to be prepared or beyond, some round before has asked for inspection, got the details and saved them, or found inspection disabled or the host externally provisioned |
| `Decisions.InspectingDecides` | internal/controller/metal3.io/host_state_machine.go:420-427 | Inspection ends exactly when it is disabled, or done with the details found and saved and no annotation left to clear |
| `Decisions.MatchProfileDecides` | internal/controller/metal3.io/host_state_machine.go:429-434 | From MatchProfile a host goes to Preparing with its failures forgotten |
| `Decisions.PreparingDecides` | internal/controller/metal3.io/host_state_machine.go:456-463 | Preparing ends exactly when the provisioner is done and nothing is lost; the settings of the spec go on record when cleaning has started with them, and a failure to apply them leaves the hardware volumes only |
| `Decisions.AvailableDecides` | internal/controller/metal3.io/host_state_machine.go:465-506 | An available host is adopted, inspected again, prepared again or provisioned, in this order, and exactly for the reasons that spec, annotation, settings and firmware objects give |
| `Decisions.ProvisioningDecides` | internal/controller/metal3.io/host_state_machine.go:546-558 | Provisioning is given up exactly for an error or a spec that contradicts what is on record, and otherwise ends with the provisioner, with what the spec names on record |
| `Decisions.ProvisionedDecides` | internal/controller/metal3.io/host_state_machine.go:436-454 | A provisioned host is deprovisioned exactly when the spec asks for nothing or something else is on record than it asks for; an externally provisioned one stays so while the spec says it |
| `Decisions.CancelledMeansContradicted` | internal/controller/metal3.io/host_state_machine.go:508-544 | Cancelled means: neither image nor custom deploy is asked for, or one is on record that is not asked for |
| `Decisions.DeprovisioningDecides` | internal/controller/metal3.io/host_state_machine.go:570-605 | Deprovisioning ends exactly when the provisioner is done, with nothing on record and only hardware volumes left of the settings; a deletion gives up on the fourth failure, or when registration is needed and there are no credentials |
| `Decisions.PoweringOffDecides` | internal/controller/metal3.io/host_state_machine.go:607-636 | The same of powering off before deletion |
| `Decisions.DeletingDecides` | internal/controller/metal3.io/baremetalhost_controller.go:568-611 | The finalizer goes exactly when the node is gone, the secrets are released and the host is written without it |
| `Decisions.DeletionBegins` | internal/controller/metal3.io/host_state_machine.go:222-266 | Where a deletion request takes a host, by its state and its registration failures |
| `Lifecycle.DetachedHostIsDeletedOnRequest` | internal/controller/metal3.io/host_state_machine.go:222-240 | A detached host stays where it is when its deletion is requested if and only if the annotation is missing or asks for delay, and otherwise goes straight to Deleting |
| `Records.DetachingDecides` | internal/controller/metal3.io/host_state_machine.go:291-333 | A host whose annotation asks for it is detached when the provisioner is done, with failures recorded, counted, and forgotten in the end |
| `Records.DeletingIsNotDetached` | internal/controller/metal3.io/host_state_machine.go:291-315 | In Deleting nobody is detached any more, not even by force |
| `Records.DelayedHostResumes` | internal/controller/metal3.io/host_state_machine.go:151-175 | A delayed host goes on with the next pass that has capacity and shows no error |
| `Records.BootModeIsRecorded` | internal/controller/metal3.io/host_state_machine.go:132-146 | The boot mode on record is that of the spec, or UEFI, whenever registration, inspection or provisioning begins, and otherwise does not change |
| `Records.MatchMeansSame` | apis/metal3.io/v1alpha1/baremetalhost_types.go:720-732 | Credentials match a secret if and only if they name it, its namespace and its version |
| `Records.RegistrationRecords` | internal/controller/metal3.io/baremetalhost_controller.go:936-975 | Registering a node records its ID, its profile once for all and the credentials tried; a node that is new to a host being prepared is prepared from scratch |
| `Records.SuccessNeedsResources` | internal/controller/metal3.io/baremetalhost_controller.go:851-1019 | Registration is done only with the node registered, the profile known and the firmware objects created |
| `Reporting.ImageIsIrrelevant` | internal/controller/metal3.io/baremetalhost_controller.go:851-915 | Where no image is wanted or none may be booted (registering, deleting, powering off, provisioned hosts not being serviced, deprovisioning without cleaning), the image makes no difference to registration |
| `Reporting.PassReportsNode` | internal/controller/metal3.io/baremetalhost_controller.go:936-965 | A failure to register is recorded with what the node says, counted and nothing else done, whenever the node was asked; or the host waits for its image |
| `Reporting.RegistersOnlyWhereNeeded` | internal/controller/metal3.io/host_state_machine.go:335-352 | The node is only looked at with credentials and in the states that need registration |
| `Reporting.PassReportsWork` | internal/controller/metal3.io/baremetalhost_controller.go:361-381 | Whatever the provisioner answers to inspecting, provisioning, deprovisioning, powering off and adopting is reported: an error changes nothing, a failure is recorded under its type with its message and counted, and while work goes on no error is shown |
| `Reporting.NothingIsForgotten` | internal/controller/metal3.io/action_result.go:24-154 | A pass that changes anything but the credentials tried, the node ID and the register metric ends dirty or with an error |
| `Records.RoundSaves` | internal/controller/metal3.io/baremetalhost_controller.go:262-296 | A round saves exactly when its pass is dirty or conditions changed, never after an error, and what is not saved is as if nothing had happened |
| `Records.UnreadableCredentials` | internal/controller/metal3.io/baremetalhost_controller.go:398-434 | Credentials that cannot be read are recorded as a failure to register; hosts without need for them or being deleted go on |
| `Lifecycle.DetailsDecideEnrolment` | internal/controller/metal3.io/baremetalhost_controller.go:613-618 | Where a pass leaves a host that was not registered yet: registering exactly if it has BMC details and nothing holds it up, and unmanaged and shown as discovered until then |
| `Lifecycle.RegisteringEndsCommitted` | internal/controller/metal3.io/host_state_machine.go:404-418 | A host leaves Registering only with the credentials of the secret committed, no registration error pending and its failures forgotten |
| `Enrolment.NewHostIsEnrolled` | internal/controller/metal3.io/host_state_machine.go:383-418 | Four rounds without an incident enrol a new host |
| `Lifecycle.ReattachingShowsErrors` | internal/controller/metal3.io/host_state_machine.go:317-331 | A host that is detached, or could not be, and is no longer asked to be, is attached by the next pass with capacity, showing an error exactly when one is still recorded; failures to detach no longer are, and no longer count |
| `Timing.DurationsAreMeasured` | internal/controller/metal3.io/host_state_machine.go:73-85 | Under a monotone clock, in every run, whatever a callback observes is a closed metric of non-negative duration |
| `Timing.MetricsSpanStates` | internal/controller/metal3.io/host_state_machine.go:63-85 | A metric starts when its state is entered, and ends when it is left |
| `Timing.ObservedDurations` | apis/metal3.io/v1alpha1/baremetalhost_types.go:743-750 | The same for one pass from metrics in order |
| `Traces.ExpensiveWorkIsGated` | internal/controller/metal3.io/host_state_machine.go:87-175 | Every inspect, provision and deprovision call and every entry into their states comes after a successful capacity check of the same pass |
| `Traces.RefusalDelays` | internal/controller/metal3.io/host_state_machine.go:87-98 | A pass refused capacity leaves the state alone and ends delayed |
| `Traces.EntriesAreTransitions` | internal/controller/metal3.io/host_state_machine.go:100-149 | A state is reported as entered exactly when the pass leaves the host in it, coming from another |
| `PowerControl.PowerConverges` | internal/controller/metal3.io/baremetalhost_controller.go:1617-1757 | With a truthful BMC and nothing under way at first, once the BMC has carried out what is asked of it in seven rounds, the power is what spec and reboot annotations ask for and every reboot is served, if and only if the host may be powered off, or is to be on with no lasting reboot annotation, or is off to begin with |
| `PowerControl.RebootedForever` | internal/controller/metal3.io/baremetalhost_controller.go:1711-1724 | Otherwise the host is rebooted again in every round |
| `PowerControl.RoundMoves` | internal/controller/metal3.io/baremetalhost_controller.go:1617-1757 | What a round does to a host in order: it records power that differs, else clears a served reboot annotation, else switches power exactly when it is not what is asked for |
| `PowerControl.RoundCloser` | internal/controller/metal3.io/baremetalhost_controller.go:1617-1757 | Each round comes closer to that, or waits for the BMC |
| `PowerControl.SettledStays` | internal/controller/metal3.io/baremetalhost_controller.go:1674-1679 | Settled power stays as it is |
| `PowerOn.PowerCallsAreCalledFor` | internal/controller/metal3.io/baremetalhost_controller.go:1681-1699 | Power on is asked for only of a host that is off, to be online and not to be rebooted, and power off only of one that is on and not to be online or to be rebooted, or that is being deleted and may be powered off |
| `Records.PowerOnMeansServiced` | internal/controller/metal3.io/baremetalhost_controller.go:1656-1672 | A provisioned host is powered on only when nothing is being serviced or left to service |
| `Records.ManagePowerServices` | internal/controller/metal3.io/baremetalhost_controller.go:1486-1615 | A host whose power is known and whose gate is open is serviced exactly when the policy finds something to service or servicing has begun; then firmware settings are recorded, or forgotten after a failure |
| `Records.PowerIsObserved` | internal/controller/metal3.io/baremetalhost_controller.go:1620-1635 | Power that is not as recorded is recorded and saved first, and ends a failure to switch it |
| `Records.SwitchingReports` | internal/controller/metal3.io/baremetalhost_controller.go:1701-1756 | A call to switch power reports failures with their message and clears errors while it goes on |
| `PowerOn.GateHoldsBack` | internal/controller/metal3.io/baremetalhost_controller.go:1641-1652 | While the gate is closed nothing is done to a host that is to be powered on: it waits, or the error is reported |
| `PowerOn.PowerOnMeansSettled` | internal/controller/metal3.io/baremetalhost_controller.go:1643-1652 | A provisioned host is powered on only past a settled data image, whatever else is answered |
| `Preparation.PreparingEndsWithSavedSettings` | internal/controller/metal3.io/baremetalhost_controller.go:1222-1331 | A step from Preparing to Available leaves the settings that saving the spec produces, if and only if they were there before or cleaning did not fail without a reason given |
| `Preparation.AvailableIsSentBackAtMostTwice` | internal/controller/metal3.io/host_state_machine.go:477-482 | While the source of the settings stays the same and no cleaning fails silently with settings to apply, a host goes from Available back to Preparing for its settings at most once, or twice if an empty RAID configuration is to be recorded for the first time or the host was still being serviced |
| `Preparation.RoundCloser` | internal/controller/metal3.io/host_state_machine.go:456-506 | One round in the loop comes closer to the fixpoint for each time it sends the host back |
| `SilentFailure.SilentFailureBouncesForever` | pkg/provisioner/ironic/ironic.go:1160-1167 | A failed cleaning without an error text sends a host from Preparing to Available and back, with every round saved, and ends where it started |
| `SilentFailure.SilentFailuresAreUnbounded` | pkg/provisioner/ironic/ironic.go:1160-1167 | Why the exception is needed: for every n there is a run of a new host that is sent back n times |
| `Controller.ReconcileOnce` | internal/controller/metal3.io/baremetalhost_controller.go:117-296 | What one reconcile leaves on the server and reports: nothing after an error, else the working copy if dirty or if conditions changed |
| `Controller.HostStateMachine.ReconcileHostState` | internal/controller/metal3.io/host_state_machine.go:177-210 | The whole pass, with the deferred update run on every way out and able to override the result |
| `Controller.HostStateMachine.UpdateHostStateFrom` | internal/controller/metal3.io/host_state_machine.go:100-149 | The deferred update: capacity first, then metrics, state and boot mode |
| `Controller.HostStateMachine.EnterNextState` | internal/controller/metal3.io/host_state_machine.go:117-145 | Turns the metrics, enters the next state and records the boot mode in the three states that need it |
| `Controller.HostStateMachine.Try` | internal/controller/metal3.io/host_state_machine.go:186-209 | The guards in their order, and the handler behind them |
| `Controller.HostStateMachine.CallHandler` | internal/controller/metal3.io/host_state_machine.go:44-61 | The handler of each state |
| `Controller.HostStateMachine.CheckCapacity` | internal/controller/metal3.io/host_state_machine.go:87-98 | An error, a delay, or nothing |
| `Controller.HostStateMachine.CheckDelayed` | internal/controller/metal3.io/host_state_machine.go:151-175 | A delayed host waits for capacity; the three costly states ask again |
| `Controller.HostStateMachine.CheckInitiateDelete` | internal/controller/metal3.io/host_state_machine.go:222-266 | Where a deletion request moves the host, exactly when it moves it |
| `Controller.HostStateMachine.CheckDetached` | internal/controller/metal3.io/host_state_machine.go:291-333 | Detaches where that is allowed or forced, and undoes it otherwise |
| `Controller.HostStateMachine.CheckRegistered` | internal/controller/metal3.io/host_state_machine.go:335-381 | Registers where the state needs it and closes the register metric |
| `Controller.HostStateMachine.BeginRegistration` | internal/controller/metal3.io/host_state_machine.go:358-363 | Opens the register metric when registration has to be repeated |
| `Controller.HostStateMachine.RecordStateBegin` | internal/controller/metal3.io/host_state_machine.go:63-71 | Starts a metric that is not open |
| `Controller.HostStateMachine.RecordStateEnd` | internal/controller/metal3.io/host_state_machine.go:73-85 | Ends an open metric, to be observed after the save, and tells whether it did |
| `Controller.HostStateMachine.CallHandleNone` | internal/controller/metal3.io/host_state_machine.go:383-394 | To Registering, or Unmanaged without BMC details |
| `Controller.HostStateMachine.CallHandleUnmanaged` | internal/controller/metal3.io/host_state_machine.go:396-402 | To Registering once there are BMC details |
| `Controller.HostStateMachine.CallHandleRegistering` | internal/controller/metal3.io/host_state_machine.go:404-418 | To the state that the spec calls for, with the error count reset |
| `Controller.HostStateMachine.CallHandleInspecting` | internal/controller/metal3.io/host_state_machine.go:420-427 | To Preparing when inspection completes |
| `Controller.HostStateMachine.CallHandleMatchProfile` | internal/controller/metal3.io/host_state_machine.go:429-434 | To Preparing |
| `Controller.HostStateMachine.CallHandleExternallyProvisioned` | internal/controller/metal3.io/host_state_machine.go:436-454 | Watches over the host, or records image and custom deploy and moves to Provisioned |
| `Controller.HostStateMachine.CallHandlePreparing` | internal/controller/metal3.io/host_state_machine.go:456-463 | To Available when preparation completes |
| `Controller.HostStateMachine.CallHandleAvailable` | internal/controller/metal3.io/host_state_machine.go:465-506 | Adoption, inspection, preparation and provisioning, in this order of precedence |
| `Controller.HostStateMachine.ProvisioningCancelled` | internal/controller/metal3.io/host_state_machine.go:508-528 | True exactly for the cancelled combinations of spec and record |
| `Controller.HostStateMachine.ImageProvisioningCancelled` | internal/controller/metal3.io/host_state_machine.go:530-544 | The same for the image alone |
| `Controller.HostStateMachine.CallHandleProvisioning` | internal/controller/metal3.io/host_state_machine.go:546-558 | Deprovisioning on an error or cancellation, Provisioned on completion |
| `Controller.HostStateMachine.CallHandleProvisioned` | internal/controller/metal3.io/host_state_machine.go:560-568 | Deprovisioning on cancellation, else watches over the host |
| `Controller.HostStateMachine.CallHandleDeprovisioning` | internal/controller/metal3.io/host_state_machine.go:570-605 | To Available, or on deletion to the next deletion state, also when giving up |
| `Controller.HostStateMachine.CallHandlePoweringOff` | internal/controller/metal3.io/host_state_machine.go:607-636 | To Deleting, also when giving up |
| `Controller.HostStateMachine.Register` | internal/controller/metal3.io/baremetalhost_controller.go:851-1019 | registerHost up to the call of the provisioner |
| `Controller.HostStateMachine.CallRegister` | internal/controller/metal3.io/baremetalhost_controller.go:924-961 | What registerHost does with the answer |
| `Controller.HostStateMachine.FinishRegistration` | internal/controller/metal3.io/baremetalhost_controller.go:963-1018 | Profile, resources and the commit of the credentials; the dirty flag starts over |
| `Controller.HostStateMachine.MatchHardwareProfile` | internal/controller/metal3.io/baremetalhost_controller.go:1181-1204 | Records profile and hints, dirty exactly if that changed something |
| `Controller.HostStateMachine.Detach` | internal/controller/metal3.io/baremetalhost_controller.go:653-677 | detachHost, with its errors counted and cleared |
| `Controller.HostStateMachine.ActionPowerOffBeforeDeleting` | internal/controller/metal3.io/baremetalhost_controller.go:535-565 | Powers off, unless that is disabled |
| `Controller.HostStateMachine.ActionDeleting` | internal/controller/metal3.io/baremetalhost_controller.go:568-611 | The finalizer goes only after the provisioner is done and the secrets are released |
| `Controller.HostStateMachine.ActionInspecting` | internal/controller/metal3.io/baremetalhost_controller.go:1043-1161 | Inspection, with the annotations cleared when it starts |
| `Controller.HostStateMachine.ActionPreparing` | internal/controller/metal3.io/baremetalhost_controller.go:1222-1265 | Computes the settings to apply on a copy and calls Prepare |
| `Controller.HostStateMachine.AfterPrepare` | internal/controller/metal3.io/baremetalhost_controller.go:1267-1331 | Saves, keeps or clears the settings by what Prepare answered |
| `Controller.HostStateMachine.ActionProvisioning` | internal/controller/metal3.io/baremetalhost_controller.go:1334-1411 | Provisions and records the image and the custom deploy |
| `Controller.HostStateMachine.ActionDeprovisioning` | internal/controller/metal3.io/baremetalhost_controller.go:1425-1448 | Adopts a host with something on record first |
| `Controller.HostStateMachine.CallDeprovision` | internal/controller/metal3.io/baremetalhost_controller.go:1450-1484 | Deprovisions and clears record and settings |
| `Controller.HostStateMachine.DoServiceIfNeeded` | internal/controller/metal3.io/baremetalhost_controller.go:1486-1557 | Decides whether servicing is needed, and yields once before it starts |
| `Controller.HostStateMachine.CallService` | internal/controller/metal3.io/baremetalhost_controller.go:1559-1614 | Servicing and its effect on status and firmware settings |
| `Controller.HostStateMachine.ManageHostPower` | internal/controller/metal3.io/baremetalhost_controller.go:1617-1689 | Observed power, the data-image gate, the reboot annotation and servicing |
| `Controller.HostStateMachine.SetPower` | internal/controller/metal3.io/baremetalhost_controller.go:1691-1756 | Changes the power where it is not as desired |
| `Controller.HostStateMachine.HandleDataImageActions` | internal/controller/metal3.io/baremetalhost_controller.go:1643-1652 | The verdict of the gate as a result |
| `Controller.HostStateMachine.ActionManageSteadyState` | internal/controller/metal3.io/baremetalhost_controller.go:1945-1965 | Adopts, then manages the power |
| `Controller.HostStateMachine.ActionManageAvailable` | internal/controller/metal3.io/baremetalhost_controller.go:1971-1977 | Completes when there is something to provision, else manages the power |
| `Controller.HostStateMachine.RecordActionFailure` | internal/controller/metal3.io/baremetalhost_controller.go:361-381 | Sets the error, counts it and reports it |
| `Controller.HostStateMachine.RecordActionDelayed` | internal/controller/metal3.io/baremetalhost_controller.go:383-396 | Marks the host as delayed |
| `Controller.HostStateMachine.ClearErrorWith` | internal/controller/metal3.io/baremetalhost_controller.go:507-519 | Clears the error; dirty exactly if the status changed |
| `Controller.HostStateMachine.SetOperationalStatus` | apis/metal3.io/v1alpha1/baremetalhost_types.go:919-925 | Sets the status; dirty exactly if it changed |
| `Settings.SettingsRecord.SaveHostProvisioningSettings` | internal/controller/metal3.io/baremetalhost_controller.go:1992-2032 | Saves hints, RAID and firmware; dirty exactly if something changed, and nothing without hints |
| `Settings.SettingsRecord.UpdateRootDeviceHints` | internal/controller/metal3.io/baremetalhost_controller.go:1021-1040 | The hints of the user or else of the profile |
| `Settings.SettingsRecord.ClearHostProvisioningSettings` | internal/controller/metal3.io/baremetalhost_controller.go:1416-1423 | Forgets hints, firmware and software volumes, and keeps hardware volumes |
| `Settings.SaveStabilises` | internal/controller/metal3.io/baremetalhost_controller.go:1992-2022 | Two applications always reach a fixpoint, and the second changes something exactly for an empty, non-nil RAID spec over a nil status |
| `Settings.FixpointMeans` | internal/controller/metal3.io/baremetalhost_controller.go:1992-2031 | Nothing has to be saved if and only if the hints are those of the user or else of the profile, the firmware settings those of the spec, and the RAID configuration is the one asked for or, without one, has only hardware volumes |
| `Settings.RAIDAfterReprovisioning` | pkg/provisioner/ironic/raid.go:189-309 | From a fixpoint, clearing and saving again asks for no RAID step, or for delete, erase and create exactly if the spec lists software volumes |
| `Raid.StepsReachTarget` | pkg/provisioner/ironic/raid.go:187-277 | Running the steps leaves a node with exactly the volumes of the half that the target speaks of, its other volumes untouched and no metadata left over, whatever it had if any step is run, and else if it had what is on record; on the agent interface an empty list of hardware volumes deletes the software ones |
| `Raid.StepsOnlyIfNeeded` | pkg/provisioner/ironic/raid.go:187-277 | No step is run if and only if the target asks for nothing or for what is on record, or there is no RAID interface; only hardware volumes without hardware RAID are refused |
| `Raid.BuildRAIDCleanSteps` | pkg/provisioner/ironic/raid.go:189-279 | The in-place procedure gives the steps of the declarative description, and only ever clears parts of its arguments |
| `IronicPrepare.IronicNode.PrepareNode` | pkg/provisioner/ironic/ironic.go:1112-1187 | The answer, the started flag and the requests, for every node state |
| `IronicPrepare.IronicNode.StartCleaning` | pkg/provisioner/ironic/ironic.go:1080-1108 | Cleaning is started, or needs nothing, or fails |
| `IronicPrepare.IronicNode.TryChangeNodeProvisionState` | pkg/provisioner/ironic/ironic.go:525-558 | A fault waits, maintenance is removed first, else the change is requested |
| `IronicPrepare.RequestsAreSafe` | pkg/provisioner/ironic/ironic.go:525-558 | A node with a fault or in maintenance is not asked to change its state; at most one request is sent, which waits for a conflict and is an error when refused |
| `IronicPrepare.PrepareReports` | pkg/provisioner/ironic/ironic.go:1080-1187 | What is wrong with the node, the volumes, the RAID configuration or the BIOS settings is reported as such |
| `IronicPrepare.PreparingConverges` | pkg/provisioner/ironic/ironic.go:1112-1187 | With every answer good, a node without a fault is prepared after exactly as many calls as its distance, three at most, with exactly the steps for its settings requested once, or none if there is nothing to do |
| `IronicPrepare.CompletionMeansStarted` | pkg/provisioner/ironic/ironic.go:1112-1187 | With settings to apply, Prepare completes without having started if and only if a cleaning failure carries no error text |
| `IronicPrepare.CompletionMeansNothingToDo` | pkg/provisioner/ironic/ironic.go:1080-1187 | Completion sends nothing and means that there is no step to run, or a silent failure |
| `IronicPrepare.StartedMeansAccepted` | pkg/provisioner/ironic/ironic.go:1080-1187 | Started means that Ironic accepted the steps or none is needed |
| `DataImages.DataImageHandler.HandleDataImageActions` | internal/controller/metal3.io/baremetalhost_controller.go:1759-1878 | The verdict, and what becomes of the DataImage and of the attached medium |
| `DataImages.DataImageHandler.AttachDataImage` | internal/controller/metal3.io/baremetalhost_controller.go:1894-1921 | Attaches and records it, or counts the error |
| `DataImages.DataImageHandler.DetachDataImage` | internal/controller/metal3.io/baremetalhost_controller.go:1924-1939 | Detaches, or counts the error |
| `DataImages.PassMeansSettled` | internal/controller/metal3.io/baremetalhost_controller.go:1759-1878 | The gate opens only on a settled data image, and on every settled one when no call fails |
| `DataImages.ErrorsAreCounted` | internal/controller/metal3.io/baremetalhost_controller.go:1759-1878 | A failed call to the BMC counts one more error, passing the gate with an image forgets them, and nothing else changes the count |
| `DataImages.GateConverges` | internal/controller/metal3.io/baremetalhost_controller.go:1759-1939 | With truthful and successful calls the gate opens after exactly the distance of the data image, three requeues at most |
| `Capacities.HasCapacity` | pkg/provisioner/ironic/ironic.go:1888-1912 | True exactly for virtual media, for hosts already busy, and when one more busy name stays within the limit; errors exactly from access details and listing |
| `Capacities.LoadBusyHosts` | pkg/provisioner/ironic/ironic.go:1914-1946 | The set of the names of busy nodes that do not use virtual media |
| `Capacities.BusyNodesCount` | pkg/provisioner/ironic/ironic.go:1914-1946 | Which nodes count as busy: seven states, unless the boot interface has virtual-media in its name |
| `Capacities.AdmissionKeepsLimit` | pkg/provisioner/ironic/ironic.go:1888-1912 | The check and its effect are apart: hosts admitted at once take the busy ones over the limit by their number less one at most, and one at a time not at all |
| `Capacities.OvershootIsReached` | pkg/provisioner/ironic/ironic.go:1888-1912 | That bound is reached |
| `NodeDeletion.NodeHandle.DeleteNode` | pkg/provisioner/ironic/ironic.go:1535-1645 | What becomes of the node, the answer and the requests, for every state of the node |
| `NodeDeletion.CompleteMeansGone` | pkg/provisioner/ironic/ironic.go:1535-1553 | Deletion is complete exactly when no node is to be found, and never reports a failure |
| `NodeDeletion.RemovalIsSafe` | pkg/provisioner/ironic/ironic.go:1555-1645 | A node is removed only while nothing is under way on it, and free of an instance, enrolled or in maintenance |
| `NodeDeletion.DeletionReports` | pkg/provisioner/ironic/ironic.go:1555-1652 | What a round asks and answers: nothing while Ironic works, the one request that ends a waiting state if it is to be cut short, removal with its outcomes, and refusals and conflicts of writes |
| `NodeDeletion.DeletionConverges` | pkg/provisioner/ironic/ironic.go:1555-1645 | A node without a fault is gone after exactly its distance of successful rounds, four at most |
| `OptionValues.OptionValueEqual` | pkg/provisioner/ironic/clients/updateopts.go:14-59 | Equal exactly for the declarative comparison; a panic only where the values clash, and then for some order of visiting maps; a difference only where there is one that can be reached |
| `OptionValues.EqualExactlyIfFaithful` | pkg/provisioner/ironic/clients/updateopts.go:14-59 | Whatever a node holds, finding it equal to a wanted value means the same JSON, if and only if the wanted value holds no nil container or is one that no node is found equal to |
| `OptionValues.EmptyHidesNil` | pkg/provisioner/ironic/clients/updateopts.go:21-38 | An input for which it does not |
| `OptionValues.PanicsExactlyIfVulnerable` | pkg/provisioner/ironic/clients/updateopts.go:14-59 | Some node makes the comparison with a wanted value panic, if and only if the wanted value has a generic container directly inside it, in a list after bare values only |
| `OptionValues.PanicsExactlyIfProvoking` | pkg/provisioner/ironic/clients/updateopts.go:14-59 | Some wanted value makes the comparison with what a node holds panic, if and only if that has a null directly inside it, or a container that holds another |
| `OptionValues.NoNullsNoClash` | pkg/provisioner/ironic/clients/updateopts.go:14-59 | A clash takes a null on one of the sides |
| `OptionValues.NullsClash` | pkg/provisioner/ironic/clients/updateopts.go:22-28 | An input that panics: it is neither equal nor different |
| `OptionValues.EqualToItsWireForm` | pkg/provisioner/ironic/clients/updateopts.go:14-59 | A value equals what is read back after it was written exactly if its scalars have the decoder's types, no container is nil and containers below the outermost are typed at every second level at most |
| `UpdateOpts.NodeUpdater.GetUpdateOperation` | pkg/provisioner/ironic/clients/updateopts.go:103-141 | Adds, removes or leaves the option; panics only where the comparison can, and for the right order does |
| `UpdateOpts.NodeUpdater.SetSectionUpdateOpts` | pkg/provisioner/ironic/clients/updateopts.go:166-174 | Appends the plan of some order that visits every setting once, or panics, only where a comparison can and for the right order certainly |
| `UpdateOpts.SectionPanicsExactlyIfVulnerable` | pkg/provisioner/ironic/clients/updateopts.go:166-174 | There is a section on which building the patch can panic, if and only if some desired value is vulnerable |
| `UpdateOpts.NodeUpdater.SetTopLevelOpt` | pkg/provisioner/ironic/clients/updateopts.go:176-182 | The same for one top-level option |
| `JSONPatch.PatchIsExactIfOrderly` | pkg/provisioner/ironic/clients/updateopts.go:103-174 | On every node and in every order the operations apply and set exactly the options, if and only if every name is without slash and tilde and every value faithful |
| `JSONPatch.PatchSetsExactlyTheOptions` | pkg/provisioner/ironic/clients/updateopts.go:103-174 | The direction that callers use, also when other options of the section were changed since it was read: the wanted options are set, those wanted nil removed, and everything else left alone |
| `JSONPatch.OperationSets` | pkg/provisioner/ironic/clients/updateopts.go:103-141 | The operations for one option with such a name and value set that option, by the rules of sections 4.1 and 4.2 of RFC 6902 |
| `JSONPatch.SectionOperations` | pkg/provisioner/ironic/clients/updateopts.go:103-146 | What adding and removing one option of a section does, by RFC 6902 |
| `JSONPatch.EscapedNamesAreRead` | pkg/provisioner/ironic/clients/updateopts.go:162-164 | What the builder would have to write for the other names, by RFC 6901: reading undoes escaping |
| `JSONPatch.PathsNamePlainOptions` | pkg/provisioner/ironic/clients/updateopts.go:162-164 | A path names its option exactly if the name has no slash and no tilde: names are not escaped |
| `JSONPatch.SecondRunIsEmpty` | pkg/provisioner/ironic/clients/updateopts.go:103-174 | Building the patch again gives no operation exactly if every wanted value is stable |
| `ImageFields.PatchWritesImage` | pkg/provisioner/ironic/ironic.go:589-663 | What the patch leaves on any node, by the fields of the image: URL, disk format and pull secret; type and value of a checksum of type md5, sha256 or sha512, the bare checksum of one without a type, none for OCI images; and nothing left of other kinds; an image that cannot be used changes nothing |
| `ImageFields.PatchWritesRest` | pkg/provisioner/ironic/ironic.go:714-740 | Whatever the image: UID, capabilities, root device hints, deploy interface and boot device |
| `ImageFields.CustomDeployWritesImage` | pkg/provisioner/ironic/ironic.go:665-711 | The same for custom deploys |
| `ImageFields.PatchedNodeRecognises` | pkg/provisioner/ironic/ironic.go:924-958 | After the patch for a usable image, an image is recognised if and only if URL, live ISO or not, checksum and type agree, where automatic types are one and checksums do not matter for OCI images and live ISOs; an unusable one only if it is an OCI image with the same URL and kind |
| `ImageFields.OCIScheme` | apis/metal3.io/v1alpha1/baremetalhost_types.go:664-669 | An OCI image has the scheme in letters of either case |
| `ImageFields.UsableMeansChecksum` | apis/metal3.io/v1alpha1/baremetalhost_types.go:1110-1142 | A checksum can be used if and only if its fields fit the kind of the image |
| `Images.GetInstanceUpdateOpts` | pkg/provisioner/ironic/ironic.go:714-739 | The patch applies to the node it was built from and gives exactly the patched document |
| `Images.SetLiveISO` | pkg/provisioner/ironic/ironic.go:589-610 | The options, the deploy interface and the boot device of a live ISO |
| `Images.SetDirectDeploy` | pkg/provisioner/ironic/ironic.go:612-663 | Those of an image deployed directly; none at all without a usable checksum |
| `Images.SetCustomDeploy` | pkg/provisioner/ironic/ironic.go:665-711 | Those of a custom deploy |
| `Images.SetOptions` | pkg/provisioner/ironic/clients/updateopts.go:184-197 | Sets the options of a section, here without a panic |
| `Images.WrittenImageIsRecognised` | pkg/provisioner/ironic/ironic.go:924-958 | After writing a valid image over any node, exactly the images with the same URL, kind and checksum are recognised; and for images whose own checksum is unusable, exactly when |
| `Images.PatchedNodeHasSameImage` | pkg/provisioner/ironic/ironic.go:714-958 | Writer and reader agree on every node, through the patch |
| `Images.UnusableImageWritesNothing` | pkg/provisioner/ironic/ironic.go:612-617 | An image without a usable checksum leaves the node as it is recognised |
| `Images.ChecksumShape` | apis/metal3.io/v1alpha1/baremetalhost_types.go:1110-1142 | A valid checksum is empty exactly for OCI images and live ISOs, and then has no type |
| `Capabilities.BuildCapabilitiesValue` | pkg/provisioner/ironic/capabilities.go:22-55 | Split, filter and join give the rewritten string |
| `Capabilities.RewritingKeepsTheRest` | pkg/provisioner/ironic/capabilities.go:44-54 | Afterwards the items are the other ones, in order and as often as before, and then exactly those of the mode |
| `Capabilities.RewritingSetsTheMode` | pkg/provisioner/ironic/capabilities.go:22-60 | After rewriting, exactly the items of the mode say anything about booting, and they come last |
| `Capabilities.LastWriterWins` | pkg/provisioner/ironic/capabilities.go:10-55 | Rewriting twice is rewriting with the last mode, if and only if the first mode is known or there was nothing to keep |
| `Capabilities.Idempotent` | pkg/provisioner/ironic/capabilities.go:22-55 | Rewriting to a known mode is idempotent |
| `Strings.SplitJoin` | pkg/provisioner/ironic/capabilities.go:45-54 | Splitting undoes joining, for items without the separator |
| `Strings.JoinSplit` | pkg/provisioner/ironic/capabilities.go:45-54 | Joining undoes splitting, and no item has the separator in it |
| `PreprovisioningImages.CacheNeverLeaks` | internal/controller/metal3.io/preprovisioningimage_controller.go:70-214 | In every run of a new object, under any changes, failures and lost writes: what is built has the recorded key, a ready image that is not being deleted has not been discarded, and nothing is left once the finalizer is gone |
| `PreprovisioningImages.ReconcileKeepsCache` | internal/controller/metal3.io/preprovisioningimage_controller.go:70-132 | One reconcile keeps that |
| `PreprovisioningImages.ReadyMeansDescribed` | internal/controller/metal3.io/preprovisioningimage_controller.go:137-213 | A round without an error that leaves a ready image has on record the first acceptable format that is supported, the architecture, and exactly name and version of the secret, or none |
| `PreprovisioningImages.ChangeIsNoticed` | internal/controller/metal3.io/preprovisioningimage_controller.go:167-190 | When any of these changes, the next successful round makes the image unready, and the one after it discards it, plans the new one and builds nothing |
| `PreprovisioningImages.OutcomeIsShown` | internal/controller/metal3.io/preprovisioningimage_controller.go:148-213 | What conditions and status say after each outcome of a build |
| `PreprovisioningImages.DeletionEnds` | internal/controller/metal3.io/preprovisioningimage_controller.go:80-98 | A deletion ends in the first round in which discard and write succeed, with nothing left in the cache; until then the finalizer stays |
| `PreprovisioningImages.Converges` | internal/controller/metal3.io/preprovisioningimage_controller.go:148-214 | With a configuration that stays the same and successful calls, three reconciles reach the image asked for, and then nothing changes |
| `PreprovisioningImages.PreprovisioningImageReconciler.ReconcileImage` | internal/controller/metal3.io/preprovisioningimage_controller.go:70-132 | What a reconcile leaves behind, and whether it reports an error |
| `PreprovisioningImages.PreprovisioningImageReconciler.UpdateImage` | internal/controller/metal3.io/preprovisioningimage_controller.go:148-214 | The status, the cache, the changed flag and the failure |
| `PreprovisioningImages.PreprovisioningImageReconciler.RecordImage` | internal/controller/metal3.io/preprovisioningimage_controller.go:293-320 | The status; changed exactly if it is another one |
| `PreprovisioningImages.PreprovisioningImageReconciler.RecordUnready` | internal/controller/metal3.io/preprovisioningimage_controller.go:322-334 | The status; always reported as changed |
| `PreprovisioningImages.PreprovisioningImageReconciler.RecordError` | internal/controller/metal3.io/preprovisioningimage_controller.go:336-351 | The status; always reported as changed |
| `PreprovisioningImages.PreprovisioningImageReconciler.DiscardExistingImage` | internal/controller/metal3.io/preprovisioningimage_controller.go:230-241 | Discards the image of the recorded key, if one was planned |
| `PreprovisioningImages.PreprovisioningImageReconciler.GetImageFormat` | internal/controller/metal3.io/preprovisioningimage_controller.go:216-228 | The first acceptable format that is supported |
| `HostClaims.AcceptableNamespaces` | pkg/hostclaim/hostclaim_manager.go:258-332 | Exactly the namespaces of the accepting policies, or an error exactly if a broken pattern is met first |
| `HostClaims.Namespaces` | pkg/hostclaim/hostclaim_manager.go:251-272 | A claim that names a namespace looks for hosts there or nowhere |
| `HostClaims.CheckLabels` | pkg/hostclaim/hostclaim_manager.go:311-326 | True exactly if every required label is there with its value |
| `HostClaims.ChooseBMH` | pkg/hostclaim/hostclaim_manager.go:361-436 | A host already held if there is any, else a free one and in the failure domain if there is any there, in any order of listing; nothing only if there is none; and the errors of policies, selector, lists and failure domain |
| `LabelSelectors.HostLabelSelectorForHostClaim` | pkg/hostclaim/hostclaim_manager.go:334-356 | The requirements select the hosts that the labels and expressions are meant to select, and there is an error exactly for an invalid selector |
| `LabelSelectors.SelectorsMeanWhatTheySay` | pkg/hostclaim/hostclaim_manager.go:334-356 | A selector over the operators of Kubernetes and of the label library is accepted if and only if its labels and expressions are well formed and none says DoesNotExist; and then it selects exactly the hosts that have the labels and are as every expression means |
| `LabelSelectors.NumbersAreRead` | pkg/hostclaim/hostclaim_manager.go:334-356 | Numbers in labels are read as they are written |
| `LabelSelectors.DoesNotExistIsRefused` | pkg/hostclaim/hostclaim_manager.go:346-353 | Whatever else it asks for, an expression with the operator DoesNotExist makes a selector invalid, because it is lowered to a name that the label library does not know |
| `HostClaims.AcceptableMeans` | pkg/hostclaim/hostclaim_manager.go:258-332 | A claim may look for hosts in a namespace if and only if a policy there has constraints and none of names, pattern and labels shuts out the namespace of the claim, and the claim names no other namespace |
| `HostClaims.ChoicesPreferTheDomain` | pkg/hostclaim/hostclaim_manager.go:191-256 | Of free hosts, one with the label of the failure domain is chosen if there is any |
| `HostClaims.ChoicesAreFit` | pkg/hostclaim/hostclaim_manager.go:381-411 | A host that may be chosen is in an acceptable namespace, has the labels, and is the claim's own or free, available, not paused, not being deleted and without an error |
| `HostClaims.PickHost` | pkg/hostclaim/hostclaim_manager.go:210-249 | Any available host, of the failure domain if there is one; an error exactly if that is no label value |
| `HostClaims.HostManager.Associate` | pkg/hostclaim/hostclaim_manager.go:103-158 | Only the chosen host changes, only if its version is the one listed, and the status names it exactly then |
| `ClaimProtocol.AssociationIsSafe` | pkg/hostclaim/hostclaim_manager.go:103-189 | In every interleaving with other claims and with anybody else, whatever becomes of policies, labels and references, and even with lists out of date, no write of a claim changes a host that carries the reference of another |
| `ClaimProtocol.ClaimsHoldOneHost` | pkg/hostclaim/hostclaim_manager.go:361-436 | With stable policies, stable labels on claimed hosts, and lists that show the hosts a claim holds as they are or offer nothing that can be booked, a claim never holds two hosts, and one that holds a host can only choose it again |
| `ClaimProtocol.ListsBookSecondExactlyIfHarmful` | pkg/hostclaim/hostclaim_manager.go:361-436 | Where claims hold one host at most, choosing from a list and writing gives a claim a second host if and only if the list does not show a host it holds as it is and offers a choice that is up to date |
| `ClaimProtocol.HolderBooksAgain` | pkg/hostclaim/hostclaim_manager.go:388-411 | Whatever else on a list is out of date, a claim whose own host is shown as it is can book that one and no other |
| `ClaimProtocol.WritesNeverSteal` | pkg/hostclaim/hostclaim_manager.go:122-143 | The same for one step |
| `ClaimProtocol.HolderChoosesAgain` | pkg/hostclaim/hostclaim_manager.go:388-391 | A holder has no other choice, and always that one |
| `ClaimProtocol.StaleListsBookTwice` | pkg/hostclaim/hostclaim_manager.go:361-436 | What such a list leads to: from any initial state with two hosts for a claim there is an execution in which it books both |

## Left out

- The Kubernetes client, informers, events, logging and counters: reads are inputs, and writes are steps that may fail.
- Ironic's HTTP calls: a node is a small record, and every call has an arbitrary answer.
- Restoring a status from an annotation and importing hardware details: runs start from a new host.
- Hardware details, the contents of hardware profiles and the texts of error messages: an input, a table that is an
  input, and a marker each.
- Volumes, hints and firmware settings are compared and copied as wholes: a number stands for the content of each.
- HostFirmwareSettings, HostFirmwareComponents and HostUpdatePolicy: whether they are ready, changed and saved is an input.
- Parsing of annotations, BMC addresses and secrets: their results are inputs.
- Conditions of a host: whether they changed is an input.
- Target RAID configurations: whether Ironic takes them is an input.
- BIOS and firmware clean steps: their number, or an error, is an input.
- PowerControl.PowerConverges: about rounds in which nothing but power is to be done and the BMC takes every request.
- Delays of the data-image gate, the power-off mode, and the answers of the steps Ironic runs later.
- Widths of integers: counters are unbounded, as they stay small in the source.
- Images.PatchedNodeHasSameImage: not stated for custom deploys, which write their checksum fields in another layout.
- Patches that address array elements: no option of a node is one.
- ClaimProtocol.ClaimsHoldOneHost: the lists that one choice reads, one for each namespace, count as a single reading.
- Deletion.DeletionFailuresAreBounded: counts the failures that are saved; one whose save fails leaves no trace.
- Non-string map keys and nested pointers among option values: no option has them.
- Lower-casing outside the letters of the scheme oci, but for the dotted capital I.
- The syntax of label keys and values: whether they are well-formed is an input.
- The health of a host's power (HasPowerFailure), attaching virtual media itself and BMC event subscriptions.
- Webhooks, BMC drivers, the firmware controllers, fixtures and command-line tools.
