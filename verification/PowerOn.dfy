/** When power is switched: only as spec and annotations ask, and on only once the data image is settled. */
module PowerOn {
  import opened HostTypes
  import opened ActionResults
  import opened Settings
  import opened Actions
  import opened StateMachine
  import opened Effects
  import opened Machine
  import opened Registration
  import opened Pass
  import opened Traces
  import DataImages

  const POWER_CALLS := {PowerOnCalled, PowerOffCalled}

  lemma ManagePowerGated(h: Hsm, env: Inputs)
    requires IsProvisioned(h.status.state) && PowerOnCalled !in h.trace
    requires PowerOnCalled in ManagePower(h, env).h.trace
    ensures GateVerdict(env) == DataImages.Pass
  {
    hide GateVerdict, Service, ChangePower;
    if PowerOnCalled in ChangePower(h, env).h.trace {
      ChangePowerCalledFor(h, env, PowerOnCalled);
    }
    if env.answers.policy.Policy? {
      ServiceEffect(h, env, env.answers.policy.settingsOnReboot, env.answers.policy.updatesOnReboot);
      ServicePowersNothing(h, env, env.answers.policy.settingsOnReboot, env.answers.policy.updatesOnReboot);
    }
  }

  lemma ServicePowersNothing(h: Hsm, env: Inputs, settingsOnReboot: bool, updatesOnReboot: bool)
    ensures Service(h, env, settingsOnReboot, updatesOnReboot).h.trace == h.trace
  {
  }

  lemma HandlerGated(h: Hsm, env: Inputs)
    requires IsProvisioned(h.status.state) && PowerOnCalled !in h.trace
    requires PowerOnCalled in Handle(h, env).h.trace
    ensures GateVerdict(env) == DataImages.Pass
  {
    hide GateVerdict, ManagePower, Cancelled;
    var h1 := Log(h, HandlerRun(h.status.state));
    if PowerOnCalled in ManagePower(h1, env).h.trace {
      ManagePowerGated(h1, env);
    }
  }

  /** Power is switched only by a handler, run on a copy that agrees with the server but for credentials and node ID. */
  lemma HandlerAsks(h: Hsm, env: Inputs, e: Event) returns (g: Hsm)
    requires AtStart(h) && env.clock.registerBegin != 0
    requires e in POWER_CALLS && !(exists x <- POWER_CALLS :: x in h.trace)
    requires e in AttemptAttached(h, env).h.trace
    ensures Aligned(g) && g.server == h.server
    ensures !(exists x <- POWER_CALLS :: x in g.trace) && e in Handle(g, env).h.trace
  {
    hide Handle, EnsureRegistered;
    EnsureRegisteredTrace(h, env);
    EnsureRegisteredEnrolls(h, env);
    g := EnsureRegistered(h, env).h;
    HandlersNeedCommittedCredentials(h, env);
  }

  lemma PassAsks(s: Status, finalizer: bool, env: Inputs, e: Event) returns (h: Hsm)
    requires Sane(Start(s, finalizer), env) && e in POWER_CALLS
    requires e in ReconcileState(s, finalizer, env).h.trace
    ensures AtStart(h) && h.server == s && !(exists x <- POWER_CALLS :: x in h.trace)
    ensures e in AttemptAttached(h, env).h.trace
  {
    hide AttemptAttached, Deferred, CheckDetachedHost, HealthInv, Redeploys, Follows, InitiatedState, Attempted;
    AttemptAttempted(Start(s, finalizer), env);
    DeferredTrace(Attempt(Start(s, finalizer), env), s.state, env);
    h := CheckDelayedHost(Start(s, finalizer), env).h;
    if AtStart(h) {
      DetachedAttempted(h, env);
    }
  }

  /** Whatever the power, the policies and the BMC answer, a provisioned host is powered on only if it has no data
      image, or one that is on its way out with nothing attached, or one whose recorded URL is the requested one and
      is attached when it is not empty. */
  lemma PowerOnMeansSettled(s: Status, finalizer: bool, env: Inputs)
    requires Sane(Start(s, finalizer), env) && IsProvisioned(s.state)
    requires PowerOnCalled in ReconcileState(s, finalizer, env).h.trace
    ensures var (w, media) := (env.answers.dataImage, env.answers.dataImageAnswers.media);
            w.image.None? || (media.Media? && DataImages.Settled(w, media.attached))
  {
    hide ReconcileState, Handle, HealthInv;
    var h := PassAsks(s, finalizer, env, PowerOnCalled);
    var g := HandlerAsks(h, env, PowerOnCalled);
    HandlerGated(g, env);
    DataImages.PassMeansSettled(env.answers.dataImage, env.answers.dataImageAnswers);
  }

  /** While the gate is closed a provisioned host that is to be powered on waits for the data image, or the error is
      reported; nothing is done to it. */
  lemma GateHoldsBack(h: Hsm, env: Inputs)
    requires IsProvisioned(h.status.state) && env.spec.online && !h.status.poweredOn
    requires env.answers.power in {PowerUnknown, Power(false)} && GateVerdict(env) != DataImages.Pass
    ensures ManagePower(h, env).h == h
    ensures ManagePower(h, env).result ==
            if GateVerdict(env) == DataImages.Requeue then ActionContinue(60) else ActionError(false)
  {
  }

  // ----- what spec and annotations ask for -----

  /** Normal reboots work only on provisioned hosts, forced ones on available hosts too. */
  predicate RebootPending(state: State, meta: Meta) {
    if state in {Provisioned, ExternallyProvisioned} then meta.anyReboot else meta.forcedReboot
  }

  /** A call that switches the power of a host in this state is called for. */
  predicate CalledFor(s: Status, env: Inputs, e: Event) {
    if s.state == PoweringOffBeforeDelete then e == PowerOffCalled && !env.spec.disablePowerOff
    else
      && s.state in {Available, Ready, Provisioned, ExternallyProvisioned}
      && (if e == PowerOnCalled then !s.poweredOn && env.spec.online && !RebootPending(s.state, env.meta)
          else s.poweredOn && (!env.spec.online || RebootPending(s.state, env.meta)))
  }

  lemma ChangePowerCalledFor(h: Hsm, env: Inputs, e: Event)
    requires e in POWER_CALLS && e !in h.trace && e in ChangePower(h, env).h.trace
    requires h.status.state in {Available, Ready, Provisioned, ExternallyProvisioned}
    ensures CalledFor(h.status, env, e)
  {
  }

  lemma ManagePowerCalledFor(h: Hsm, env: Inputs, e: Event)
    requires e in POWER_CALLS && e !in h.trace && e in ManagePower(h, env).h.trace
    requires h.status.state in {Available, Ready, Provisioned, ExternallyProvisioned}
    ensures CalledFor(h.status, env, e)
  {
    hide GateVerdict, Service, ChangePower, CalledFor;
    if e in ChangePower(h, env).h.trace {
      ChangePowerCalledFor(h, env, e);
    }
    if env.answers.policy.Policy? {
      ServiceEffect(h, env, env.answers.policy.settingsOnReboot, env.answers.policy.updatesOnReboot);
      ServicePowersNothing(h, env, env.answers.policy.settingsOnReboot, env.answers.policy.updatesOnReboot);
    }
  }

  /** The handlers that may switch the power of a host they leave where it is; the others switch none. */
  lemma HandlerWatches(h: Hsm, env: Inputs, e: Event)
    requires e in POWER_CALLS && e !in h.trace && e in Handle(h, env).h.trace && Aligned(h)
    ensures h.status.state in {Available, Ready, Provisioned, ExternallyProvisioned, PoweringOffBeforeDelete}
  {
    hide HandleNone, HandleUnmanaged, HandleRegistering, HandleInspecting, HandleMatchProfile, HandleDeprovisioning,
         HandleExternallyProvisioned, HandlePreparing, HandleAvailable, HandleProvisioning, HandleProvisioned,
         HandlePoweringOff, HandleDeleting;
    var h1 := Log(h, HandlerRun(h.status.state));
    QuietHandlers(h1, env);
    BusyHandlers(h1, env, e);
  }

  lemma QuietHandlers(h: Hsm, env: Inputs)
    ensures HandleNone(h, env).h.trace == HandleUnmanaged(h, env).h.trace == h.trace
    ensures HandleRegistering(h, env).h.trace == h.trace
    ensures HandleMatchProfile(h).h.trace == HandlePreparing(h, env).h.trace == h.trace
    ensures Aligned(h) ==> HandleDeleting(h, env).h.trace == h.trace
  {
    hide PrepareHost, DeleteHost;
    PrepareEffect(h, env);
    if Aligned(h) {
      DeleteEffect(h, env);
    }
  }

  lemma BusyHandlers(h: Hsm, env: Inputs, e: Event)
    requires e in POWER_CALLS && e !in h.trace && Aligned(h)
    ensures e !in HandleInspecting(h, env).h.trace && e !in HandleProvisioning(h, env).h.trace
    ensures e !in HandleDeprovisioning(h, env).h.trace
  {
    hide Inspect, Provision, Cancelled, HandleDeprovisioning;
    InspectCalls(h, env, e);
    ProvisionCalls(h, env, e);
    DeprovisioningCalls(h, env, e);
  }

  lemma InspectCalls(h: Hsm, env: Inputs, e: Event)
    requires e in POWER_CALLS && e !in h.trace
    ensures e !in Inspect(h, env).h.trace
  {
  }

  lemma ProvisionCalls(h: Hsm, env: Inputs, e: Event)
    requires e in POWER_CALLS && e !in h.trace
    ensures e !in Provision(h, env).h.trace
  {
    hide Deployed;
  }

  lemma DeprovisioningCalls(h: Hsm, env: Inputs, e: Event)
    requires e in POWER_CALLS && e !in h.trace && Aligned(h)
    ensures e !in HandleDeprovisioning(h, env).h.trace
  {
    hide Deprovision, SameLife, ReportsKeepingCount, Ongoing;
    DeprovisionEffect(h, env);
  }

  lemma PoweringOffCalledFor(h: Hsm, env: Inputs, e: Event)
    requires e in POWER_CALLS && e !in h.trace && h.status.state == PoweringOffBeforeDelete
    requires e in HandlePoweringOff(h, env).h.trace
    ensures CalledFor(h.status, env, e)
  {
  }

  lemma HandlerCalledFor(h: Hsm, env: Inputs, e: Event)
    requires e in POWER_CALLS && e !in h.trace && e in Handle(h, env).h.trace && Aligned(h)
    ensures CalledFor(h.status, env, e)
  {
    hide ManagePower, HandlePoweringOff, CalledFor, Cancelled, Fixpoint, WantedHints;
    HandlerWatches(h, env, e);
    var h1 := Log(h, HandlerRun(h.status.state));
    if h.status.state == PoweringOffBeforeDelete {
      PoweringOffCalledFor(h1, env, e);
    } else if e in ManagePower(h1, env).h.trace {
      ManagePowerCalledFor(h1, env, e);
    }
  }

  /** Power is asked for only on a host that is off, is to be online and has no reboot pending, and power off only on
      one that is on and is not to be online or has a reboot pending, or on one that is being deleted and may be
      powered off. */
  lemma PowerCallsAreCalledFor(s: Status, finalizer: bool, env: Inputs, e: Event)
    requires Sane(Start(s, finalizer), env) && e in POWER_CALLS
    requires e in ReconcileState(s, finalizer, env).h.trace
    ensures CalledFor(s, env, e)
  {
    hide ReconcileState, Handle, HealthInv;
    var h := PassAsks(s, finalizer, env, e);
    var g := HandlerAsks(h, env, e);
    HandlerCalledFor(g, env, e);
  }
}
