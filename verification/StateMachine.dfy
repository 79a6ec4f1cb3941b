/** The host state machine, as functions on the in-memory state of one reconcile
    (internal/controller/metal3.io/host_state_machine.go), and the reconcile around it. */
module StateMachine {
  import opened HostTypes
  import opened ActionResults
  import opened Settings
  import opened Actions

  const RETRY_COUNT: nat := 3

  // ----- operation metrics -----

  /** recordStateBegin */
  function BeginMetric(s: Status, state: State, now: Time): Status {
    if HasMetric(state) && !MetricFor(s.history, state).Open()
    then s.(history := SetMetric(s.history, state, Metric(now, 0)))
    else s
  }

  predicate EndsMetric(s: Status, state: State) {
    HasMetric(state) && MetricFor(s.history, state).Open()
  }

  /** recordStateEnd */
  function EndMetric(h: Hsm, state: State, now: Time): Hsm {
    if EndsMetric(h.status, state) then
      var metric := MetricFor(h.status.history, state).(end := now);
      Log(h.(status := h.status.(history := SetMetric(h.status.history, state, metric))), MetricObserved(state))
    else h
  }

  // ----- capacity -----

  predicate NeedsCapacity(state: State) {
    state in {Inspecting, Provisioning, Deprovisioning}
  }

  /** ensureCapacity */
  function EnsureCapacity(h: Hsm, answer: CapacityAnswer): Step {
    match answer
    case CapacityError => Step(h, ActionError(false))
    case Capacity(free) =>
      var h1 := Log(h, CapacityChecked(free));
      if free then Step(h1, NoAction) else RecordDelayed(h1)
  }

  /** checkDelayedHost */
  function CheckDelayedHost(h: Hsm, env: Inputs): Step {
    if h.status.health.op == Delayed then
      var c := EnsureCapacity(h, env.answers.capacityBefore);
      if c.result != NoAction then c else Step(c.h.(status := ClearError(c.h.status)), ActionUpdate(0))
    else if NeedsCapacity(h.status.state) then EnsureCapacity(h, env.answers.capacityBefore)
    else Step(h, NoAction)
  }

  // ----- deletion and detachment -----

  /** delayDeleteForDetachedHost */
  predicate DelaysDeletion(meta: Meta, status: Status) {
    match meta.detached
    case NotDetached => status.health.op == Detached
    case Unparsable => false
    case Arguments(delay, _) => delay
  }

  predicate GivesUpRegistering(status: Status) {
    status.health.errorType == RegistrationError && status.health.errorCount > 3
  }

  /** checkInitiateDelete: the state that a deletion moves the host to, if it moves it at all. */
  function InitiatedState(next: State, status: Status, meta: Meta): Option<State> {
    if !meta.deleting then None
    else if next != Deleting && status.health.op == Detached then
      if DelaysDeletion(meta, status) then None else Some(Deleting)
    else
      match next
      case Registering => Some(Deleting)
      case Unmanaged => Some(Deleting)
      case NoState => Some(Deleting)
      case Provisioning => Some(Deprovisioning)
      case Provisioned => Some(Deprovisioning)
      case Deprovisioning => if GivesUpRegistering(status) then Some(Deleting) else None
      case PoweringOffBeforeDelete => if GivesUpRegistering(status) then Some(Deleting) else None
      case Deleting => None
      case _ => Some(PoweringOffBeforeDelete)
  }

  predicate Detachable(state: State) {
    state in {Provisioned, ExternallyProvisioned, Ready, Available}
  }

  /** checkDetachedHost */
  function CheckDetachedHost(h: Hsm, env: Inputs): Step {
    var detached := env.meta.detached;
    if detached != NotDetached && Detachable(h.status.state) then DetachHost(h, env)
    else if detached.Arguments? && detached.force && h.status.state != Deleting then DetachHost(h, env)
    else if h.status.health.errorType == DetachError then
      Step(h.(status := SetErrorCount(ClearError(h.status), 0)), ActionUpdate(0))
    else if h.status.health.op == Detached then
      Step(h.(status := SetOp(h.status, if h.status.health.errorType != NoError then ErrorStatus else OK)),
           ActionUpdate(0))
    else Step(h, NoAction)
  }

  // ----- registration -----

  predicate RegistersIn(h: Hsm, env: Inputs) {
    && env.haveCreds
    && h.next !in {NoState, Unmanaged, MatchProfile, Deleting}
    && !(h.next == Inspecting && InspectionDisabled(env.spec, env.meta))
  }

  predicate RetriesRegistration(s: Status, secret: Secret) {
    s.health.errorType == RegistrationError || !Match(s.good, secret)
  }

  /** A registered host that has to be registered again is timed from here on. */
  function RetryRegistration(h: Hsm, env: Inputs): Hsm {
    if h.next != Registering && RetriesRegistration(h.status, env.secret)
    then h.(status := BeginMetric(h.status, Registering, env.clock.registerBegin)) else h
  }

  /** ensureRegistered */
  function EnsureRegistered(h: Hsm, env: Inputs): Step {
    if !RegistersIn(h, env) then Step(h, NoAction)
    else
      var r := RegisterHost(RetryRegistration(h, env), env);
      if r.result !in {NoAction, ActionComplete} then r
      else if h.next != Registering && EndsMetric(r.h.status, Registering) then
        Step(EndMetric(r.h, Registering, env.clock.registerEnd), ActionUpdate(0))
      else if r.result == ActionComplete then r.(result := ActionUpdate(0))
      else r
  }

  // ----- the handlers -----

  function GoTo(h: Hsm, next: State): Step {
    Step(h.(next := next), ActionComplete)
  }

  function ResetErrorCount(h: Hsm): Hsm {
    h.(status := SetErrorCount(h.status, 0))
  }

  function HandleNone(h: Hsm, env: Inputs): Step {
    if HasBMCDetails(env.spec) then GoTo(h, Registering)
    else GoTo(h.(status := SetOp(h.status, Discovered)), Unmanaged)
  }

  function HandleUnmanaged(h: Hsm, env: Inputs): Step {
    var r := ManageUnmanaged(h, env);
    if r.result == ActionComplete then GoTo(r.h, Registering) else r
  }

  function HandleRegistering(h: Hsm, env: Inputs): Step {
    GoTo(ResetErrorCount(h),
         if env.spec.externallyProvisioned then ExternallyProvisioned
         else if InspectionDisabled(env.spec, env.meta) then Preparing
         else Inspecting)
  }

  function HandleInspecting(h: Hsm, env: Inputs): Step {
    var r := Inspect(h, env);
    if r.result == ActionComplete then GoTo(ResetErrorCount(r.h), Preparing) else r
  }

  function HandleMatchProfile(h: Hsm): Step {
    GoTo(ResetErrorCount(h), Preparing)
  }

  function HandleExternallyProvisioned(h: Hsm, env: Inputs): Step {
    if env.spec.externallyProvisioned then ManageSteadyState(h, env)
    else GoTo(RecordDeployed(h, env), Provisioned)
  }

  function HandlePreparing(h: Hsm, env: Inputs): Step {
    var r := PrepareHost(h, env);
    if r.result == ActionComplete then GoTo(ResetErrorCount(r.h), Available) else r
  }

  function HandleAvailable(h: Hsm, env: Inputs): Step {
    if env.spec.externallyProvisioned then
      GoTo(h.(status := h.status.(settings := Clear(h.status.settings))), ExternallyProvisioned)
    else if env.meta.inspect == InspectRefresh then GoTo(h, Inspecting)
    else
      var source := SourceFor(env, h.status);
      if WantedHints(source).None? then Step(h, ActionError(false))
      else if !Fixpoint(source, h.status.settings) then GoTo(h, Preparing)
      else if env.answers.hfs.NotReady? then Step(h, ActionError(false))
      else if env.answers.hfs.changes then GoTo(h, Preparing)
      else if env.answers.hfc.NotReady? then Step(h, ActionError(false))
      else if env.answers.hfc.changes then GoTo(h, Preparing)
      else
        var r := ManageAvailable(h, env);
        if r.result == ActionComplete then GoTo(r.h, Provisioning) else r
  }

  /** imageProvisioningCancelled */
  predicate ImageCancelled(spec: Spec, d: Deployment) {
    !HasURL(spec.image) || (d.image.url != "" && spec.image.value.url != d.image.url)
  }

  /** provisioningCancelled */
  predicate Cancelled(spec: Spec, d: Deployment) {
    if HasMethod(spec.customDeploy) then
      || (HasMethod(d.customDeploy) && spec.customDeploy != d.customDeploy)
      || (d.image.url != "" && (spec.image.None? || spec.image.value.url != d.image.url))
    else HasMethod(d.customDeploy) || ImageCancelled(spec, d)
  }

  function HandleProvisioning(h: Hsm, env: Inputs): Step {
    if h.status.health.errorType != NoError || Cancelled(env.spec, h.status.deployed) then GoTo(h, Deprovisioning)
    else
      var r := Provision(h, env);
      if r.result == ActionComplete then GoTo(ResetErrorCount(r.h), Provisioned) else r
  }

  function HandleProvisioned(h: Hsm, env: Inputs): Step {
    if Cancelled(env.spec, h.status.deployed) then GoTo(h, Deprovisioning) else ManageSteadyState(h, env)
  }

  function HandleDeprovisioning(h: Hsm, env: Inputs): Step {
    var r := Deprovision(h, env);
    if !env.meta.deleting then
      if r.result == ActionComplete then GoTo(ResetErrorCount(r.h), Available) else r
    else
      match r.result
      case ActionComplete => GoTo(ResetErrorCount(r.h), PoweringOffBeforeDelete)
      case ActionFailed(_, _) =>
        if r.h.status.health.errorCount > RETRY_COUNT then GoTo(r.h, PoweringOffBeforeDelete) else r
      case ActionError(needsRegistration) => if needsRegistration && !env.haveCreds then GoTo(r.h, Deleting) else r
      case _ => r
  }

  function HandlePoweringOff(h: Hsm, env: Inputs): Step {
    var r := PowerOffBeforeDeleting(h, env);
    match r.result
    case ActionComplete => GoTo(r.h.(status := SetErrorCount(r.h.status, 0).(poweredOn := false)), Deleting)
    case ActionFailed(_, _) => if r.h.status.health.errorCount > RETRY_COUNT then GoTo(r.h, Deleting) else r
    case ActionError(needsRegistration) => if needsRegistration && !env.haveCreds then GoTo(r.h, Deleting) else r
    case _ => r
  }

  function HandleDeleting(h: Hsm, env: Inputs): Step {
    DeleteHost(h, env)
  }

  function Handle(h: Hsm, env: Inputs): Step {
    var h1 := Log(h, HandlerRun(h.status.state));
    match h.status.state
    case NoState => HandleNone(h1, env)
    case Unmanaged => HandleUnmanaged(h1, env)
    case Registering => HandleRegistering(h1, env)
    case Inspecting => HandleInspecting(h1, env)
    case ExternallyProvisioned => HandleExternallyProvisioned(h1, env)
    case MatchProfile => HandleMatchProfile(h1)
    case Preparing => HandlePreparing(h1, env)
    case Available => HandleAvailable(h1, env)
    case Ready => HandleAvailable(h1, env)
    case Provisioning => HandleProvisioning(h1, env)
    case Provisioned => HandleProvisioned(h1, env)
    case Deprovisioning => HandleDeprovisioning(h1, env)
    case PoweringOffBeforeDelete => HandlePoweringOff(h1, env)
    case Deleting => HandleDeleting(h1, env)
  }

  // ----- one pass of the machine -----

  /** The guards and the handler, before the deferred update. */
  function Attempt(h: Hsm, env: Inputs): Step {
    var delayed := CheckDelayedHost(h, env);
    if delayed.result != NoAction then delayed else AttemptUndelayed(delayed.h, env)
  }

  function AttemptUndelayed(h: Hsm, env: Inputs): Step {
    var initiated := InitiatedState(h.next, h.status, env.meta);
    if initiated.Some? then GoTo(h, initiated.value)
    else
      var detached := CheckDetachedHost(h, env);
      if detached.result != NoAction then detached else AttemptAttached(detached.h, env)
  }

  function AttemptAttached(h: Hsm, env: Inputs): Step {
    var registered := EnsureRegistered(h, env);
    if registered.result != NoAction then registered else Handle(registered.h, env)
  }

  /** Entering the next state: the metrics turn, and the boot mode is recorded where it matters. */
  function Enter(h: Hsm, initial: State, env: Inputs): Hsm {
    var h1 := EndMetric(h, initial, env.clock.transition);
    var s := BeginMetric(h1.status, h.next, env.clock.transition).(state := h.next);
    Log(h1.(status := if h.next in {Registering, Inspecting, Provisioning}
                      then s.(bootMode := EffectiveBootMode(env.spec)) else s),
        StateEntered(h.next))
  }

  /** updateHostStateFrom: the deferred update, which can veto a transition after the handler has already changed
      the host. */
  function UpdateState(h: Hsm, initial: State, env: Inputs): Step {
    if h.next == initial then Step(h, NoAction)
    else
      var c := if NeedsCapacity(h.next) then EnsureCapacity(h, env.answers.capacityAfter) else Step(h, NoAction);
      if c.result != NoAction then c else Step(Enter(c.h, initial, env), NoAction)
  }

  function Deferred(attempt: Step, initial: State, env: Inputs): Step {
    var u := UpdateState(attempt.h, initial, env);
    if u.result != NoAction then u else Step(u.h, attempt.result)
  }

  function Start(s: Status, finalizer: bool): Hsm {
    Hsm(s, s, s.state, finalizer, 0, [])
  }

  function ReconcileState(s: Status, finalizer: bool, env: Inputs): Step {
    Deferred(Attempt(Start(s, finalizer), env), s.state, env)
  }

  // ----- one reconcile -----

  /** What surrounds the machine: an interruption before it runs (the host paused, no finalizer yet, data not
      loaded, provisioner not ready), credentials that cannot be read, whether the conditions changed and whether
      the status write succeeds. */
  datatype Round = Round(env: Inputs, interrupted: bool, credentialsError: Option<Message>, finalizer: bool,
                         conditionsChanged: bool, saveOk: bool)

  predicate NeedsCredentials(state: State) {
    state !in {NoState, Unmanaged}
  }

  /** The credentials are read before the machine runs: without them it runs only for a host that does not need
      them or is being deleted. No instant is Go's zero time. */
  predicate WellFormed(r: Round, s: Status) {
    && (r.env.haveCreds <==> NeedsCredentials(s.state) && r.credentialsError.None?)
    && (!r.finalizer && !r.env.meta.deleting ==> r.interrupted)
    && r.env.clock.registerBegin != 0 && r.env.clock.registerEnd != 0 && r.env.clock.transition != 0
  }

  /** The host the next round finds, what the machine reported, and the events that took effect. */
  datatype Reconciled = Reconciled(status: Status, result: ActionResult, finalizer: bool, saved: bool, failures: nat,
                                   trace: seq<Event>)

  predicate Saves(r: Round, result: ActionResult) {
    !result.ActionError? && (Dirty(result) || r.conditionsChanged) && r.saveOk
  }

  predicate RunsMachine(s: Status, r: Round) {
    !r.interrupted && !(NeedsCredentials(s.state) && r.credentialsError.Some? && !r.env.meta.deleting)
  }

  /** Reconcile: nothing is saved after an error; otherwise the status is saved if the result is dirty or the
      conditions changed. A credentials error is recorded and saved without running the machine. */
  function Reconcile(s: Status, r: Round): Reconciled {
    if r.interrupted then Reconciled(s, NoAction, r.finalizer, false, 0, [])
    else if !RunsMachine(s, r) then
      Reconciled(if r.saveOk then SetErrorMessage(s, RegistrationError, r.credentialsError.value) else s,
                 NoAction, r.finalizer, r.saveOk, 1, [])
    else
      var m := ReconcileState(s, r.finalizer, r.env);
      var saved := Saves(r, m.result);
      Reconciled(if saved then m.h.status else s, m.result, m.h.finalizer, saved, m.h.failures, m.h.trace)
  }

  /** A run: each round starts from what the previous one left on the server. */
  ghost predicate Run(states: seq<Status>, rounds: seq<Round>) {
    && |states| == |rounds| + 1
    && forall i | 0 <= i < |rounds| ::
         WellFormed(rounds[i], states[i]) && states[i + 1] == Reconcile(states[i], rounds[i]).status
  }

  /** A status that some run leads a fresh host to. */
  ghost predicate Reachable(s: Status) {
    exists states: seq<Status>, rounds: seq<Round> :: Run(states, rounds) && states[0] == FRESH && states[|rounds|] == s
  }
}
