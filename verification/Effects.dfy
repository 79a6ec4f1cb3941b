/** What each action can change: the summaries from which the invariants of the machine are proved. */
module Effects {
  import opened HostTypes
  import opened ActionResults
  import opened Settings
  import opened IronicPrepare
  import opened Actions

  /** The working copy differs from the server's only in fields that no later decision of this round reads. */
  predicate Aligned(h: Hsm) {
    && h.status == h.server.(tried := h.status.tried, id := h.status.id, good := h.status.good)
    && h.next == h.status.state
  }

  /** Same place in the life cycle: state, history, recorded image and boot mode. */
  predicate SameLife(a: Status, b: Status) {
    b.state == a.state && b.history == a.history && b.deployed == a.deployed && b.bootMode == a.bootMode
  }

  /** OperationalStatus error needs an error type, and an error type shows as error unless it is covered by
      delayed, detached or servicing; without an error type there is no error message. */
  predicate ErrorsShown(s: Status) {
    && (s.health.errorType == NoError ==> s.health.errorMessage == NoMessage)
    && (s.health.op == ErrorStatus ==> s.health.errorType != NoError)
    && (s.health.errorType != NoError ==> s.health.op in {ErrorStatus, Delayed, Detached, Servicing})
  }

  /** Of the events, at most `e` is new, and then that annotations were cleared. */
  predicate Adds(before: seq<Event>, after: seq<Event>, e: Event) {
    || after == before || after == before + [e]
    || after == before + [AnnotationsCleared] || after == before + [e] + [AnnotationsCleared]
  }

  /** The place in the life cycle, the server's copy and the next state are untouched; of the events, at most `e` is
      new. */
  predicate StaysPut(h: Hsm, r: Step, e: Event) {
    && r.h.server == h.server && r.h.next == h.next && SameLife(h.status, r.h.status)
    && Adds(h.trace, r.h.trace, e)
  }

  /** As StaysPut; and the good credentials change only by being read back from the server. */
  predicate Stays(h: Hsm, r: Step, e: Event) {
    StaysPut(h, r, e) && r.h.status.good in {h.status.good, h.server.good}
  }

  /** A failed result comes with its error recorded and counted; any other result counts none, and neither hides nor
      invents an error. */
  predicate Reports(h: Hsm, r: Step) {
    && r.h.failures == h.failures + (if r.result.ActionFailed? then 1 else 0)
    && (if r.result.ActionFailed? then
          && r.h.status.health.op == ErrorStatus
          && r.h.status.health.errorType == r.result.errorType != NoError
          && r.h.status.health.errorCount == r.result.errorCount == h.status.health.errorCount + 1
        else
          && r.h.status.health.errorCount <= h.status.health.errorCount
          && r.h.status.health.errorType in {NoError, h.status.health.errorType}
          && (ErrorsShown(h.status) ==> ErrorsShown(r.h.status)))
  }

  /** As Reports; and the count of failures is never reset, and a failure is not one to detach. */
  predicate ReportsKeepingCount(h: Hsm, r: Step) {
    && Reports(h, r)
    && (if r.result.ActionFailed? then r.result.errorType != DetachError
        else r.h.status.health.errorCount == h.status.health.errorCount)
  }

  predicate Ongoing(r: ActionResult) {
    r.ActionContinue? || r.ActionUpdate? || r.ActionError? || r.ActionFailed?
  }

  // ----- registration -----

  predicate Registers(h: Hsm, r: Step) {
    && StaysPut(h, r, RegisterCalled) && r.h.trace in {h.trace, h.trace + [RegisterCalled]}
    && r.h.finalizer == h.finalizer
    && ReportsKeepingCount(h, r)
    && (r.result.NoAction? || r.result.ActionComplete? || Ongoing(r.result))
    && (r.result.ActionFailed? ==> r.result.errorType == RegistrationError)
  }

  lemma CommitEffect(h: Hsm, env: Inputs)
    ensures Registers(h, MatchProfileAndCommit(h, env))
    ensures MatchProfileAndCommit(h, env).h.trace == h.trace
  {
    hide Match, NewProfile, ProfileName, WantedHints;
  }

  lemma RecordIDEffect(s: Status, id: string)
    ensures var r := RecordID(s, id);
            SameLife(s, r) && r.health == s.health && r.good == s.good
  {
  }

  lemma RegisterNodeEffect(h: Hsm, env: Inputs, wantsImage: bool, credsChanged: bool)
    ensures Registers(h, RegisterNode(h, env, wantsImage, credsChanged))
    ensures RegisterNode(h, env, wantsImage, credsChanged).h.trace == h.trace
  {
    hide MatchProfileAndCommit, RecordID;
    if env.answers.register.register.Registered? {
      RecordIDEffect(h.status, env.answers.register.register.id);
      CommitEffect(h.(status := RecordID(h.status, env.answers.register.register.id)), env);
    }
  }

  lemma FindImageEffect(h: Hsm, env: Inputs, credsChanged: bool)
    ensures Registers(h, FindImage(h, env, credsChanged))
  {
    hide RegisterNode;
    var a := env.answers.register;
    RegisterNodeEffect(Log(h, RegisterCalled), env, a.wantsImage && UsesImage(env.spec, h.status), credsChanged);
  }

  lemma RegisterEffect(h: Hsm, env: Inputs)
    ensures Registers(h, RegisterHost(h, env))
  {
    hide FindImage;
    FindImageEffect(h, env, false);
    FindImageEffect(NoteTried(h, env), env, true);
  }

  // ----- detaching and deleting -----

  lemma DetachEffect(h: Hsm, env: Inputs)
    ensures var r := DetachHost(h, env);
            && Stays(h, r, RegisterCalled) && Reports(h, r) && Ongoing(r.result) && r.h.trace == h.trace
            && (r.result.ActionFailed? ==> r.result.errorType == DetachError)
  {
  }

  lemma PowerOffEffect(h: Hsm, env: Inputs)
    ensures var r := PowerOffBeforeDeleting(h, env);
            && Stays(h, r, PowerOffCalled) && ReportsKeepingCount(h, r)
            && (Ongoing(r.result) || r.result.ActionComplete?)
  {
  }

  lemma DeleteEffect(h: Hsm, env: Inputs)
    requires Aligned(h)
    ensures var r := DeleteHost(h, env);
            && Stays(h, r, RegisterCalled) && ReportsKeepingCount(h, r) && r.h.trace == h.trace
            && (r.result.ActionContinue? || r.result.ActionError? || (r.result.DeleteComplete? && !r.h.finalizer))
  {
  }

  // ----- inspecting and preparing -----

  lemma InspectEffect(h: Hsm, env: Inputs)
    requires Aligned(h)
    ensures var r := Inspect(h, env);
            && Stays(h, r, InspectCalled) && ReportsKeepingCount(h, r)
            && (Ongoing(r.result) || r.result.ActionComplete?)
  {
  }

  lemma PreparedEffect(h: Hsm, env: Inputs, target: HostSettings, bmhDirty: bool, p: Preparation)
    requires env.answers.hfc.Pending?
    ensures var r := Prepared(h, env, target, bmhDirty, p);
            && Stays(h, r, RegisterCalled) && ReportsKeepingCount(h, r) && r.h.trace == h.trace
            && (Ongoing(r.result) || r.result.ActionComplete?)
  {
    hide Clear;
  }

  lemma PrepareEffect(h: Hsm, env: Inputs)
    ensures var r := PrepareHost(h, env);
            && Stays(h, r, RegisterCalled) && ReportsKeepingCount(h, r) && r.h.trace == h.trace
            && (Ongoing(r.result) || r.result.ActionComplete?)
  {
    hide CallPrepare, Save, WantedHints, Prepared;
    if WantedHints(SourceFor(env, h.status)).Some? && env.answers.hfs.Pending? && env.answers.hfc.Pending? {
      var target := Save(SourceFor(env, h.status), h.status.settings);
      var retry := h.status.health.errorType == PreparationError;
      var bmhDirty := target != h.status.settings || retry;
      PreparedEffect(h, env, target, bmhDirty, CallPrepare(h, env, target, bmhDirty, retry));
    }
  }

  // ----- provisioning and deprovisioning -----

  lemma ProvisionEffect(h: Hsm, env: Inputs)
    requires Aligned(h)
    ensures var r := Provision(h, env);
            && (Ongoing(r.result) || r.result.ActionComplete?)
            && Reports(h, r)
            && (if r.result.ActionComplete? then r.h == RecordDeployed(Log(h, ProvisionCalled), env)
                else Stays(h, r, ProvisionCalled))
  {
    hide Deployed;
  }

  /** Deprovisioning completes with nothing on record; until then the record stays. */
  predicate Deprovisions(h: Hsm, r: Step) {
    && (Ongoing(r.result) || r.result.ActionComplete?)
    && ReportsKeepingCount(h, r)
    && (if r.result.ActionComplete? then
          Stays(h.(status := h.status.(deployed := NOTHING_DEPLOYED)), r, DeprovisionCalled)
        else Stays(h, r, DeprovisionCalled))
  }

  lemma DeprovisionAdoptedEffect(h: Hsm, env: Inputs)
    requires Aligned(h)
    ensures Deprovisions(h, DeprovisionAdopted(h, env))
  {
  }

  lemma DeprovisionEffect(h: Hsm, env: Inputs)
    requires Aligned(h)
    ensures Deprovisions(h, Deprovision(h, env))
  {
    hide DeprovisionAdopted, Recorded;
    DeprovisionAdoptedEffect(h, env);
  }

  // ----- steady state -----

  /** The effect of watching over a host: an ongoing result, and at most a power-on or a power-off. */
  predicate Monitors(h: Hsm, r: Step) {
    (Stays(h, r, PowerOnCalled) || Stays(h, r, PowerOffCalled)) && Reports(h, r) && Ongoing(r.result)
  }

  lemma ServicedEffect(h: Hsm, env: Inputs, fwDirty: bool, hfcDirty: bool)
    requires h.status.health.op == Servicing
    ensures Monitors(h, Serviced(h, env, fwDirty, hfcDirty))
  {
  }

  lemma ServiceEffect(h: Hsm, env: Inputs, settingsOnReboot: bool, updatesOnReboot: bool)
    ensures var r := Service(h, env, settingsOnReboot, updatesOnReboot);
            if r.result == NoAction then r.h == h else Monitors(h, r)
  {
    hide Serviced;
    if h.status.health.op == Servicing {
      var fwDirty := settingsOnReboot && h.status.settings.firmware != env.spec.firmware;
      ServicedEffect(h, env, fwDirty, updatesOnReboot && env.answers.hfc.Pending? && env.answers.hfc.changes);
    }
  }

  lemma ChangePowerEffect(h: Hsm, env: Inputs)
    requires Aligned(h)
    ensures Monitors(h, ChangePower(h, env))
  {
    hide Stays, Reports, ChangePower;
    ChangePowerStays(h, env);
    ChangePowerReports(h, env);
  }

  lemma ChangePowerStays(h: Hsm, env: Inputs)
    requires Aligned(h)
    ensures var r := ChangePower(h, env);
            Stays(h, r, PowerOnCalled) || Stays(h, r, PowerOffCalled)
  {
  }

  lemma ChangePowerReports(h: Hsm, env: Inputs)
    requires Aligned(h)
    ensures Reports(h, ChangePower(h, env)) && Ongoing(ChangePower(h, env).result)
  {
    hide DesiredOn;
  }

  lemma ErrorEffect(h: Hsm)
    ensures Monitors(h, Step(h, ActionError(false)))
  {
  }

  lemma ServiceOrPowerEffect(h: Hsm, env: Inputs, servicingAllowed: bool)
    requires Aligned(h)
    ensures Monitors(h, ServiceOrPower(h, env, servicingAllowed))
  {
    hide Service, ChangePower, Monitors;
    ErrorEffect(h);
    ChangePowerEffect(h, env);
    if env.answers.policy.Policy? {
      ServiceEffect(h, env, env.answers.policy.settingsOnReboot, env.answers.policy.updatesOnReboot);
    }
  }

  lemma ManagePowerEffect(h: Hsm, env: Inputs)
    requires Aligned(h)
    ensures Monitors(h, ManagePower(h, env))
  {
    hide GateVerdict, ServiceOrPower;
    ServiceOrPowerEffect(h, env, IsProvisioned(h.status.state) && env.spec.online && !h.status.poweredOn);
  }

  lemma SteadyStateEffect(h: Hsm, env: Inputs)
    requires Aligned(h)
    ensures Monitors(h, ManageSteadyState(h, env))
  {
    hide ManagePower;
    ManagePowerEffect(h, env);
  }

  lemma AvailableEffect(h: Hsm, env: Inputs)
    requires Aligned(h)
    ensures var r := ManageAvailable(h, env);
            if NeedsProvisioning(env.spec, h.status.deployed)
            then r == Step(h.(status := ClearError(h.status)), ActionComplete)
            else Monitors(h, r)
  {
    hide ManagePower, NeedsProvisioning;
    ManagePowerEffect(h, env);
  }
}
