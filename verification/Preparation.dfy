/** Preparing a host: it ends with the settings of the spec on record, and an available host is sent back for its
    settings at most twice. */
module Preparation {
  import opened HostTypes
  import opened ActionResults
  import opened Settings
  import opened IronicPrepare
  import opened Actions
  import opened StateMachine
  import opened Effects
  import opened Machine
  import opened Registration
  import opened Pass
  import opened Invariants
  import opened Lifecycle

  // ----- what preparing leaves behind -----

  /** Cleaning has failed, nobody is to retry it, and Ironic does not say why: this reads as completion. */
  predicate FailedSilently(s: Status, env: Inputs) {
    SilentCleanFailure(env.answers.node, s.health.errorType == PreparationError)
  }

  /** A preparation that completes leaves the settings of the spec if and only if they were there before or cleaning did
      not fail silently; otherwise it leaves them as they were. */
  lemma PrepareLands(h: Hsm, env: Inputs)
    requires PrepareHost(h, env).result == ActionComplete
    ensures var (source, before) := (SourceFor(env, h.status), h.status.settings);
            var after := PrepareHost(h, env).h.status.settings;
            && WantedHints(source).Some?
            && (after == Save(source, before) <==> Fixpoint(source, before) || !FailedSilently(h.status, env))
            && (after != Save(source, before) ==> after == before)
  {
    hide Prepare, Save, WantedHints, SilentCleanFailure;
    var source := SourceFor(env, h.status);
    var target := Save(source, h.status.settings);
    var retry := h.status.health.errorType == PreparationError;
    var dirty := target != h.status.settings || retry;
    CompletionMeansStarted(env.answers.node, PrepareData(target.raid, if retry then None else h.status.settings.raid),
                           dirty || env.answers.hfs.changes || env.answers.hfc.changes, retry);
  }

  /** A step from Preparing to Available leaves a status that saving the settings of the spec produces, if and only if
      it was one already or cleaning did not fail silently. */
  lemma PreparingEndsWithSavedSettings(s: Status, finalizer: bool, env: Inputs)
    requires Sane(Start(s, finalizer), env) && s.state == Preparing
    requires ReconcileState(s, finalizer, env).h.status.state == Available
    ensures var (source, after) := (SourceFor(env, s), ReconcileState(s, finalizer, env).h.status.settings);
            && WantedHints(source).Some?
            && (after == Save(source, s.settings) <==> Fixpoint(source, s.settings) || !FailedSilently(s, env))
  {
    hide ReconcileState, PrepareHost, Save, WantedHints, SilentCleanFailure;
    DeletionDoesNotProvision(s, finalizer, env);
    var g := HandlerChose(s, finalizer, env);
    var g1 := Log(g, HandlerRun(Preparing));
    PrepareEffect(g1, env);
    PrepareLands(g1, env);
  }

  // ----- how often an available host is sent back -----

  /** The states between registration and provisioning. */
  predicate InLoop(state: State) {
    state in {Inspecting, MatchProfile, Preparing, Available, Ready}
  }

  /** Saving once is not enough: the spec holds an empty RAID configuration and the status none. */
  predicate NeedsTwice(source: Source, settings: HostSettings) {
    source.spec.raid == Some(EMPTY_RAID) && settings.raid.None?
  }

  /** Nothing but the root device hints has to be saved. */
  predicate Applied(source: Source, settings: HostSettings)
    requires WantedHints(source).Some?
  {
    Save(source, settings).(rootDeviceHints := settings.rootDeviceHints) == settings
  }

  /** No servicing is going on. */
  predicate Quiet(s: Status) {
    s.health.op != Servicing && s.health.errorType != ServicingError
  }

  /** Servicing left over from an earlier life can still fail, and then forgets the firmware settings. */
  predicate MayForget(source: Source, settings: HostSettings, quiet: bool)
    requires WantedHints(source).Some?
  {
    !quiet && source.spec.firmware.Some? && Applied(source, settings)
  }

  /** How often a host can still be sent from Available back to Preparing to apply the settings of this source. */
  function Bounces(source: Source, state: State, settings: HostSettings, quiet: bool): nat
    requires WantedHints(source).Some?
  {
    var now: nat := if state in {Available, Ready} && !Fixpoint(source, settings) then 1 else 0;
    var again: nat := if NeedsTwice(source, settings) then 1 else 0;
    var forgotten: nat := if MayForget(source, settings, quiet) then 1 else 0;
    now + again + forgotten
  }

  /** The same, of a host that is or will be in the state. */
  function BouncesIn(source: Source, state: State, s: Status): nat
    requires WantedHints(source).Some?
  {
    Bounces(source, state, s.settings, Quiet(s))
  }

  /** The settings come no farther from those of the source while the host stays where it is. */
  predicate Tame(source: Source, a: Status, b: Status)
    requires WantedHints(source).Some?
  {
    && b.state == a.state && b.hardwareProfile == a.hardwareProfile
    && BouncesIn(source, a.state, b) <= BouncesIn(source, a.state, a)
  }

  /** The source of a host in the loop: the hardware profile is chosen. */
  predicate From(source: Source, h: Hsm, env: Inputs) {
    && InLoop(h.status.state) && h.status.hardwareProfile != ""
    && WantedHints(source).Some? && SourceFor(env, h.status) == source
  }

  /** If the host is being prepared, completion means that its settings are applied. */
  predicate Applies(source: Source, s: Status, env: Inputs)
    requires WantedHints(source).Some?
  {
    s.state == Preparing ==> Fixpoint(source, s.settings) || !FailedSilently(s, env)
  }

  lemma ClearedIsTame(source: Source, state: State, settings: HostSettings, before: bool, after: bool)
    requires WantedHints(source).Some? && state !in {Available, Ready}
    ensures Bounces(source, state, Clear(settings), after) <= Bounces(source, state, settings, before)
  {
  }

  lemma ProfileIsTame(source: Source, state: State, settings: HostSettings, before: bool, after: bool)
    requires WantedHints(source).Some? && (before ==> after)
    ensures Bounces(source, state, settings.(rootDeviceHints := WantedHints(source)), after) <=
            Bounces(source, state, settings, before)
  {
  }

  lemma QuietIsTame(source: Source, state: State, settings: HostSettings, before: bool, after: bool)
    requires WantedHints(source).Some? && (before ==> after)
    ensures Bounces(source, state, settings, after) <= Bounces(source, state, settings, before)
    ensures Fixpoint(source, settings) ==>
              Bounces(source, Available, settings, after) <= Bounces(source, state, settings, before)
  {
  }

  lemma SavedIsTame(source: Source, state: State, settings: HostSettings, before: bool)
    requires WantedHints(source).Some? && state !in {Available, Ready}
    ensures Bounces(source, state, Save(source, settings), true) <= Bounces(source, state, settings, before)
    ensures Bounces(source, Available, Save(source, settings), true) <= Bounces(source, state, settings, before)
    ensures Save(source, settings) != Clear(settings)
  {
  }

  lemma CommitTame(source: Source, h: Hsm, env: Inputs)
    requires From(source, h, env)
    ensures Tame(source, h.status, MatchProfileAndCommit(h, env).h.status)
  {
    hide Bounces, Match, Fixpoint, WantedHints;
    var after := MatchProfileAndCommit(h, env).h.status;
    ProfileIsTame(source, h.status.state, h.status.settings, Quiet(h.status), Quiet(after));
    QuietIsTame(source, h.status.state, h.status.settings, Quiet(h.status), Quiet(after));
  }

  lemma RecordIDTame(source: Source, h: Hsm, env: Inputs, id: string)
    requires From(source, h, env)
    ensures Tame(source, h.status, RecordID(h.status, id))
  {
    hide Bounces;
    if h.status.state == Preparing {
      ClearedIsTame(source, Preparing, h.status.settings, Quiet(h.status), Quiet(h.status));
    }
  }

  lemma RegisterNodeTame(source: Source, h: Hsm, env: Inputs, wantsImage: bool, credsChanged: bool)
    requires From(source, h, env)
    ensures Tame(source, h.status, RegisterNode(h, env, wantsImage, credsChanged).h.status)
  {
    hide Bounces, MatchProfileAndCommit, RecordID, SourceFor, WantedHints;
    if env.answers.register.register.Registered? {
      var id := env.answers.register.register.id;
      RecordIDTame(source, h, env, id);
      assert SourceFor(env, RecordID(h.status, id)) == SourceFor(env, h.status) by {
        SourceReadsProfile(env, RecordID(h.status, id), h.status);
      }
      CommitTame(source, h.(status := RecordID(h.status, id)), env);
      QuietIsTame(source, h.status.state, RecordID(h.status, id).settings, Quiet(RecordID(h.status, id)), true);
    }
    QuietIsTame(source, h.status.state, h.status.settings, Quiet(h.status), true);
  }

  lemma SourceReadsProfile(env: Inputs, a: Status, b: Status)
    requires a.hardwareProfile == b.hardwareProfile
    ensures SourceFor(env, a) == SourceFor(env, b)
  {
  }

  lemma FindImageTame(source: Source, h: Hsm, env: Inputs, credsChanged: bool)
    requires From(source, h, env)
    ensures Tame(source, h.status, FindImage(h, env, credsChanged).h.status)
  {
    hide Bounces, RegisterNode, WantedHints;
    var a := env.answers.register;
    RegisterNodeTame(source, Log(h, RegisterCalled), env, a.wantsImage && UsesImage(env.spec, h.status), credsChanged);
    QuietIsTame(source, h.status.state, h.status.settings, Quiet(h.status), true);
  }

  lemma RegisterTame(source: Source, h: Hsm, env: Inputs)
    requires From(source, h, env)
    ensures Tame(source, h.status, RegisterHost(h, env).h.status)
  {
    hide Bounces, FindImage, WantedHints;
    FindImageTame(source, h, env, false);
    FindImageTame(source, NoteTried(h, env), env, true);
  }

  lemma EnsureRegisteredTame(source: Source, h: Hsm, env: Inputs)
    requires From(source, h, env)
    ensures Tame(source, h.status, EnsureRegistered(h, env).h.status)
  {
    hide Bounces, RegisterHost, WantedHints, Match;
    RegisterTame(source, h, env);
    RegisterTame(source, h.(status := BeginMetric(h.status, Registering, env.clock.registerBegin)), env);
  }

  // ----- the handlers of the loop -----

  /** The settings and the profile are those of `h`, and no servicing has begun. */
  predicate Leaves(h: Hsm, r: Step) {
    && r.h.status.settings == h.status.settings && r.h.status.hardwareProfile == h.status.hardwareProfile
    && (Quiet(h.status) ==> Quiet(r.h.status))
  }

  lemma InspectLeaves(h: Hsm, env: Inputs)
    requires Aligned(h)
    ensures Leaves(h, Inspect(h, env))
  {
  }

  lemma ChangePowerLeaves(h: Hsm, env: Inputs)
    requires Aligned(h)
    ensures Leaves(h, ChangePower(h, env))
  {
  }

  /** As Leaves; or servicing that was going on fails, and the firmware settings are forgotten. */
  predicate LeavesOrForgets(h: Hsm, r: Step) {
    || Leaves(h, r)
    || (&& !Quiet(h.status) && r.h.status.hardwareProfile == h.status.hardwareProfile
        && r.h.status.settings == h.status.settings.(firmware := None))
  }

  lemma ServiceForgets(h: Hsm, env: Inputs, settingsOnReboot: bool, updatesOnReboot: bool)
    requires env.answers.hfs == Pending(false) && env.answers.hfc == Pending(false)
    requires h.status.settings.firmware == env.spec.firmware
    ensures LeavesOrForgets(h, Service(h, env, settingsOnReboot, updatesOnReboot))
  {
  }

  lemma ManagePowerForgets(h: Hsm, env: Inputs)
    requires Aligned(h) && !IsProvisioned(h.status.state)
    requires env.answers.hfs == Pending(false) && env.answers.hfc == Pending(false)
    requires h.status.settings.firmware == env.spec.firmware
    ensures LeavesOrForgets(h, ManagePower(h, env))
  {
    hide ChangePower, Service, GateVerdict;
    ChangePowerLeaves(h, env);
    if env.answers.policy.Policy? {
      var (settings, updates) := (env.answers.policy.settingsOnReboot, env.answers.policy.updatesOnReboot);
      ServiceForgets(h, env, settings, updates);
      ServiceEffect(h, env, settings, updates);
    }
  }

  /** Preparing only forgets or saves settings, and when it saves them nothing is being serviced any more. */
  lemma PrepareKeeps(h: Hsm, env: Inputs)
    requires WantedHints(SourceFor(env, h.status)).Some?
    ensures var (s, source) := (PrepareHost(h, env).h.status, SourceFor(env, h.status));
            && s.hardwareProfile == h.status.hardwareProfile
            && (|| (s.settings == h.status.settings && (Quiet(h.status) ==> Quiet(s)))
                || s.settings == Clear(h.status.settings)
                || (s.settings == Save(source, h.status.settings) && Quiet(s)))
  {
    hide CallPrepare, Save, WantedHints;
  }

  /** The host is sent back from Available because its settings are not those of the source. */
  predicate SentBack(source: Source, a: Status, next: State)
    requires WantedHints(source).Some?
  {
    a.state in {Available, Ready} && next == Preparing && !Fixpoint(source, a.settings)
  }

  /** A pass that stays in the loop comes closer to the fixpoint for each time it sends the host back; and one that
      may yet be refused its transition comes no farther. */
  predicate Closer(source: Source, a: Status, r: Step)
    requires WantedHints(source).Some?
  {
    && (InLoop(r.h.next) || NeedsCapacity(r.h.next) ==> r.h.status.hardwareProfile == a.hardwareProfile)
    && (InLoop(r.h.next) ==>
          BouncesIn(source, r.h.next, r.h.status) + (if SentBack(source, a, r.h.next) then 1 else 0)
          <= BouncesIn(source, a.state, a))
    && (NeedsCapacity(r.h.next) ==> BouncesIn(source, a.state, r.h.status) <= BouncesIn(source, a.state, a))
  }

  lemma PreparingCloser(source: Source, h: Hsm, env: Inputs)
    requires From(source, h, env) && Aligned(h) && h.status.state == Preparing && Applies(source, h.status, env)
    ensures Closer(source, h.status, HandlePreparing(h, env))
  {
    hide Bounces, PrepareHost, WantedHints, Save, Clear;
    PrepareKeeps(h, env);
    PrepareEffect(h, env);
    var (settings, quiet, after) := (h.status.settings, Quiet(h.status), Quiet(PrepareHost(h, env).h.status));
    ClearedIsTame(source, Preparing, settings, quiet, after);
    SavedIsTame(source, Preparing, settings, quiet);
    if quiet ==> after {
      QuietIsTame(source, Preparing, settings, quiet, after);
    }
    if PrepareHost(h, env).result == ActionComplete {
      PrepareLands(h, env);
    }
  }

  lemma InspectingCloser(source: Source, h: Hsm, env: Inputs)
    requires From(source, h, env) && Aligned(h) && h.status.state in {Inspecting, MatchProfile}
    ensures h.status.state == Inspecting ==> Closer(source, h.status, HandleInspecting(h, env))
    ensures h.status.state == MatchProfile ==> Closer(source, h.status, HandleMatchProfile(h))
  {
    hide Inspect, Fixpoint;
    InspectLeaves(h, env);
    InspectEffect(h, env);
  }

  /** What is forgotten was on record, and is to be recorded again. */
  lemma ForgottenIsTame(source: Source, state: State, settings: HostSettings, after: bool)
    requires WantedHints(source).Some? && Fixpoint(source, settings)
    ensures Bounces(source, state, settings.(firmware := None), after) <= Bounces(source, state, settings, false)
  {
  }

  /** An available host with the settings of the source stays, or provisioning begins. */
  lemma ManageAvailableTame(source: Source, h: Hsm, env: Inputs)
    requires From(source, h, env) && Aligned(h) && h.status.state in {Available, Ready}
    requires Fixpoint(source, h.status.settings)
    requires env.answers.hfs == Pending(false) && env.answers.hfc == Pending(false)
    ensures Tame(source, h.status, ManageAvailable(h, env).h.status)
  {
    hide ManagePower, NeedsProvisioning, WantedHints, Fixpoint, Bounces;
    assert h.status.settings.firmware == env.spec.firmware by { FixpointHasFirmware(source, h.status.settings); }
    ManagePowerForgets(h, env);
    ManagePowerEffect(h, env);
    var (settings, quiet, after) := (h.status.settings, Quiet(h.status), Quiet(ManageAvailable(h, env).h.status));
    ForgottenIsTame(source, h.status.state, settings, after);
    if quiet ==> after {
      QuietIsTame(source, h.status.state, settings, quiet, after);
    }
  }

  lemma FixpointHasFirmware(source: Source, settings: HostSettings)
    requires WantedHints(source).Some? && Fixpoint(source, settings)
    ensures settings.firmware == source.spec.firmware
  {
  }

  lemma AvailableCloser(source: Source, h: Hsm, env: Inputs)
    requires From(source, h, env) && Aligned(h) && h.status.state in {Available, Ready}
    ensures Closer(source, h.status, HandleAvailable(h, env))
  {
    hide ManagePower, NeedsProvisioning, WantedHints, NeedsTwice, Clear, Fixpoint, MayForget;
    if Fixpoint(source, h.status.settings) && env.answers.hfs == Pending(false) && env.answers.hfc == Pending(false) {
      ManagePowerEffect(h, env);
      ManageAvailableTame(source, h, env);
    }
  }

  lemma HandlerCloser(source: Source, h: Hsm, env: Inputs)
    requires From(source, h, env) && Aligned(h) && Applies(source, h.status, env)
    ensures Closer(source, h.status, Handle(h, env))
  {
    hide Closer, HandleInspecting, HandlePreparing, HandleAvailable, HandleMatchProfile, SourceFor, Aligned;
    var h1 := Log(h, HandlerRun(h.status.state));
    assert From(source, h1, env) && Aligned(h1) by { AlignedLogged(h); }
    match h.status.state {
      case Inspecting => InspectingCloser(source, h1, env);
      case MatchProfile => InspectingCloser(source, h1, env);
      case Preparing => PreparingCloser(source, h1, env);
      case Available => AvailableCloser(source, h1, env);
      case Ready => AvailableCloser(source, h1, env);
    }
  }

  lemma AlignedLogged(h: Hsm)
    requires Aligned(h)
    ensures Aligned(Log(h, HandlerRun(h.status.state)))
  {
  }

  // ----- rounds and runs -----

  lemma DetachLeaves(h: Hsm, env: Inputs)
    ensures Leaves(h, CheckDetachedHost(h, env))
  {
  }

  lemma AttachedCloser(source: Source, h: Hsm, env: Inputs)
    requires From(source, h, env) && Applies(source, h.status, env) && AtStart(h) && env.clock.registerBegin != 0
    ensures Closer(source, h.status, AttemptAttached(h, env))
  {
    hide Bounces, EnsureRegistered, Handle, WantedHints, SourceFor, Fixpoint;
    EnsureRegisteredTame(source, h, env);
    EnsureRegisteredEnrolls(h, env);
    var r := EnsureRegistered(h, env);
    if r.result == NoAction {
      HandlersNeedCommittedCredentials(h, env);
      SourceReadsProfile(env, r.h.status, h.status);
      HandlerCloser(source, r.h, env);
    }
  }

  lemma UndelayedCloser(source: Source, h: Hsm, env: Inputs)
    requires From(source, h, env) && Applies(source, h.status, env) && AtStart(h) && env.clock.registerBegin != 0
    ensures Closer(source, h.status, AttemptUndelayed(h, env))
  {
    hide Bounces, AttemptAttached, CheckDetachedHost, WantedHints, DelaysDeletion, Fixpoint;
    DetachLeaves(h, env);
    DetachedAttempted(h, env);
    var after := CheckDetachedHost(h, env).h.status;
    QuietIsTame(source, h.status.state, h.status.settings, Quiet(h.status), Quiet(after));
    AttachedCloser(source, h, env);
  }

  lemma AttemptCloser(source: Source, h: Hsm, env: Inputs)
    requires From(source, h, env) && Applies(source, h.status, env) && AtStart(h) && env.clock.registerBegin != 0
    ensures Closer(source, h.status, Attempt(h, env))
  {
    hide Bounces, AttemptUndelayed, WantedHints, Fixpoint;
    var d := CheckDelayedHost(h, env);
    QuietIsTame(source, h.status.state, h.status.settings, Quiet(h.status), Quiet(d.h.status));
    if d.result == NoAction {
      UndelayedCloser(source, d.h, env);
    }
  }

  lemma MetricsLeave(h: Hsm, state: State, now: Time)
    ensures EndMetric(h, state, now).status == h.status.(history := EndMetric(h, state, now).status.history)
    ensures BeginMetric(h.status, state, now) == h.status.(history := BeginMetric(h.status, state, now).history)
  {
    hide SetMetric, MetricFor;
  }

  /** The deferred update touches neither the settings nor the profile. */
  lemma DeferredLeaves(a: Step, initial: State, env: Inputs)
    ensures Leaves(a.h, Deferred(a, initial, env))
  {
    hide EndMetric, BeginMetric;
    if a.h.next != initial {
      var c := if NeedsCapacity(a.h.next) then EnsureCapacity(a.h, env.answers.capacityAfter) else Step(a.h, NoAction);
      MetricsLeave(c.h, initial, env.clock.transition);
      MetricsLeave(EndMetric(c.h, initial, env.clock.transition), a.h.next, env.clock.transition);
    }
  }

  /** One round over a host in the loop: its profile and the spec give the source, and cleaning does not fail silently
      with settings to apply. */
  predicate Ordinary(source: Source, s: Status, r: Round)
    requires WantedHints(source).Some?
  {
    && WellFormed(r, s)
    && InLoop(s.state) && SourceFor(r.env, s) == source && Applies(source, s, r.env)
  }

  /** What holds of a host in the loop between rounds. */
  predicate Settling(s: Status) {
    Invariant(s) && s.hardwareProfile != ""
  }

  lemma RoundCloser(source: Source, s: Status, r: Round)
    requires WantedHints(source).Some? && Settling(s) && Ordinary(source, s, r) && InLoop(Reconcile(s, r).status.state)
    ensures var after := Reconcile(s, r).status;
            && Settling(after)
            && BouncesIn(source, after.state, after) + (if SentBack(source, s, after.state) then 1 else 0)
               <= BouncesIn(source, s.state, s)
  {
    hide Bounces, Attempt, Deferred, WantedHints, Fixpoint, HealthInv, RecordInv, MetricInv, Redeploys, SourceFor;
    RoundKeepsInvariant(s, r);
    if RunsMachine(s, r) {
      var h := Start(s, r.finalizer);
      var a := Attempt(h, r.env);
      AttemptAttempted(h, r.env);
      DeferredUpdate(h, a, r.env);
      AttemptCloser(source, h, r.env);
      if InLoop(a.h.next) || NeedsCapacity(a.h.next) {
        DeferredLeaves(a, s.state, r.env);
        var b := Deferred(a, s.state, r.env).h.status;
        QuietIsTame(source, b.state, b.settings, Quiet(a.h.status), Quiet(b));
      }
    } else {
      QuietIsTame(source, s.state, s.settings, Quiet(s), Quiet(Reconcile(s, r).status));
    }
  }

  /** The times between the i-th and the j-th round that the host was sent back from Available for its settings. */
  function TimesSentBack(source: Source, states: seq<Status>, i: nat, j: nat): nat
    requires WantedHints(source).Some? && i <= j < |states|
    decreases j
  {
    if i == j then 0
    else TimesSentBack(source, states, i, j - 1) + if SentBack(source, states[j - 1], states[j].state) then 1 else 0
  }

  /** From the i-th to the j-th round, a run stays in the loop, under a source that does not change. */
  ghost predicate OrdinaryBetween(source: Source, states: seq<Status>, rounds: seq<Round>, i: nat, j: nat)
    requires WantedHints(source).Some? && |states| == |rounds| + 1 && i <= j < |states|
  {
    InLoop(states[j].state) && forall k | 0 <= k < |rounds| && i <= k < j :: Ordinary(source, states[k], rounds[k])
  }

  lemma {:induction false} RunCloser(source: Source, states: seq<Status>, rounds: seq<Round>, i: nat, j: nat)
    requires Run(states, rounds) && states[0] == FRESH && i <= j < |states| && WantedHints(source).Some?
    requires OrdinaryBetween(source, states, rounds, i, j) && Settling(states[i])
    ensures Settling(states[j])
    ensures TimesSentBack(source, states, i, j) + BouncesIn(source, states[j].state, states[j])
            <= BouncesIn(source, states[i].state, states[i])
    decreases j
  {
    hide BouncesIn, Settling, Reconcile, WantedHints, SentBack, WellFormed;
    if i < j {
      assert Ordinary(source, states[j - 1], rounds[j - 1]);
      RunCloser(source, states, rounds, i, j - 1);
      RoundCloser(source, states[j - 1], rounds[j - 1]);
    }
  }

  /** In every run of a fresh host, as long as the source of the settings stays the same and no cleaning fails
      silently, an available host is sent back to Preparing for its settings at most twice, and at most once unless an
      empty RAID configuration is to be recorded for the first time or servicing was left unfinished. */
  lemma AvailableIsSentBackAtMostTwice(source: Source, states: seq<Status>, rounds: seq<Round>, i: nat, j: nat)
    requires Run(states, rounds) && states[0] == FRESH && i <= j < |states| && WantedHints(source).Some?
    requires OrdinaryBetween(source, states, rounds, i, j) && states[i].hardwareProfile != ""
    ensures TimesSentBack(source, states, i, j) <=
            if NeedsTwice(source, states[i].settings) || !Quiet(states[i]) then 2 else 1
  {
    hide Run, OrdinaryBetween, SentBack, TimesSentBack, Invariant;
    RunKeepsInvariant(states, rounds, i);
    RunCloser(source, states, rounds, i, j);
  }
}
