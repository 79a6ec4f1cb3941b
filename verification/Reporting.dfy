/** What a pass reports: every failure of a call with the message it came with, no error while work goes on, and nothing
    that it changes is forgotten. */
module Reporting {
  import opened HostTypes
  import opened ActionResults
  import opened Settings
  import opened IronicPrepare
  import opened Actions
  import opened StateMachine
  import opened Effects
  import opened Machine
  import opened Registration
  import opened Pass
  import opened Traces
  import opened Decisions

  /** The pass ends with this failure, recorded and counted, and leaves the host where it was. */
  predicate Fails(s: Status, m: Step, errorType: ErrorType, message: Message) {
    && m.result == ActionFailed(errorType, s.health.errorCount + 1) && m.h.status.state == s.state
    && m.h.status.health == Health(ErrorStatus, errorType, message, s.health.errorCount + 1)
  }

  // ----- registration -----

  /** The states in which a node may have to be booted from an image that is built for it. */
  predicate MayBootImage(s: Status, spec: Spec) {
    && s.state !in {Registering, Deleting, PoweringOffBeforeDelete}
    && (s.state in {Provisioned, ExternallyProvisioned} ==> s.health.op == Servicing)
    && (s.state == Deprovisioning ==> !spec.cleaningDisabled)
  }

  /** Where no image is wanted or none may be booted, the image plays no part in registration. */
  lemma ImageIsIrrelevant(h: Hsm, env: Inputs, image: ImageAnswer)
    requires !env.answers.register.wantsImage || !MayBootImage(h.status, env.spec)
    ensures var other := env.(answers := env.answers.(register := env.answers.register.(image := image)));
            RegisterHost(h, env) == RegisterHost(h, other)
  {
    hide FindImage;
    ImagePlaysNoPart(h, env, image, false);
    ImagePlaysNoPart(NoteTried(h, env), env, image, true);
  }

  lemma ImagePlaysNoPart(h: Hsm, env: Inputs, image: ImageAnswer, credsChanged: bool)
    requires !env.answers.register.wantsImage || !MayBootImage(h.status, env.spec)
    ensures var other := env.(answers := env.answers.(register := env.answers.register.(image := image)));
            FindImage(h, env, credsChanged) == FindImage(h, other, credsChanged)
  {
    hide CommitCredentials, NewProfile, RecordProfile, RecordID, MatchProfileAndCommit;
    var other := env.(answers := env.answers.(register := env.answers.register.(image := image)));
    if env.answers.register.register.Registered? {
      var recorded := RecordID(h.status, env.answers.register.register.id);
      CommitReadsNoImage(Log(h, RegisterCalled).(status := recorded), env, image);
    }
  }

  lemma CommitReadsNoImage(h: Hsm, env: Inputs, image: ImageAnswer)
    ensures var other := env.(answers := env.answers.(register := env.answers.register.(image := image)));
            MatchProfileAndCommit(h, env) == MatchProfileAndCommit(h, other)
  {
  }

  /** The failures of registration before a node is looked at: the image, where it is wanted, or the network data. */
  predicate BrokenBefore(s: Status, env: Inputs, message: Message) {
    var (a, wanted) := (env.answers.register, env.answers.register.wantsImage && MayBootImage(s, env.spec));
    && !a.formatsError
    && (|| (wanted && a.image == ImageBuildError(message))
        || (&& !(wanted && (a.image.ImageBuildError? || a.image.ImageLookupError?))
            && a.networkDataError == Some(message)))
  }

  /** What registration reports when it fails on an image, network data or the node. */
  ghost predicate ReportsRegistration(s: Status, env: Inputs, r: Step, called: bool) {
    var a := env.answers.register;
    var (wanted, node) := (a.wantsImage && MayBootImage(s, env.spec), a.register);
    && (forall message :: BrokenBefore(s, env, message) ==> !called && Fails(s, r, RegistrationError, message))
    && (called && node.NeedsImage? ==>
          if !wanted then r.result == ActionError(false)
          else if a.image.ImageFound? then Fails(s, r, RegistrationError, ImageNotAcceptable)
          else r.result.ActionContinue?)
    && (called && node.Registered? && node.result.Result? && node.result.message != NoMessage ==>
          Fails(s, r, RegistrationError, node.result.message))
    && (called && node.RegisterError? ==> r.result == ActionError(node.needsRegistration))
    && (called && node.Registered? && node.result.Error? ==> r.result == ActionError(node.result.needsRegistration))
  }

  lemma FindImageReports(h: Hsm, env: Inputs, credsChanged: bool)
    requires RegisterCalled !in h.trace
    ensures var r := FindImage(h, env, credsChanged);
            ReportsRegistration(h.status, env, r, RegisterCalled in r.h.trace)
  {
    hide MatchProfileAndCommit, RecordID;
  }

  lemma RegistrationReports(h: Hsm, env: Inputs)
    requires RegisterCalled !in h.trace
    ensures var r := RegisterHost(h, env);
            ReportsRegistration(h.status, env, r, RegisterCalled in r.h.trace)
  {
    hide FindImage;
    FindImageReports(h, env, false);
    FindImageReports(NoteTried(h, env), env, true);
    assert forall message ::
        BrokenBefore(h.status, env, message) ==> BrokenBefore(NoteTried(h, env).status, env, message);
  }

  /** What a pass reports that gets to registration and fails there: for an image that cannot be used, or with what the
      node says; or it waits for the image. */
  predicate ReportsNode(s: Status, env: Inputs, m: Step) {
    var a := env.answers.register;
    && (a.register.NeedsImage? ==>
          if !(a.wantsImage && MayBootImage(s, env.spec)) then m.result == ActionError(false)
          else if a.image.ImageFound? then Fails(s, m, RegistrationError, ImageNotAcceptable)
          else m.result.ActionContinue?)
    && (a.register.Registered? && a.register.result.Result? && a.register.result.message != NoMessage ==>
          Fails(s, m, RegistrationError, a.register.result.message))
    && (a.register.RegisterError? ==> m.result == ActionError(a.register.needsRegistration))
    && (a.register.Registered? && a.register.result.Error? ==>
          m.result == ActionError(a.register.result.needsRegistration))
  }

  lemma EnsureReports(d: Hsm, env: Inputs)
    requires AtStart(d) && RegisterCalled !in d.trace && RegisterCalled in EnsureRegistered(d, env).h.trace
    ensures ReportsNode(d.status, env, EnsureRegistered(d, env))
  {
    hide RegisterHost, EndMetric, RetryRegistration, MayBootImage;
    RetryTouchesMetric(d, env);
    var h1 := RetryRegistration(d, env);
    RegistrationReports(h1, env);
    EndTouchesMetric(RegisterHost(h1, env).h, env.clock.registerEnd);
    MayBootReads(h1.status, d.status, env.spec);
    EndAddsNoCall(RegisterHost(h1, env).h, env.clock.registerEnd);
  }

  lemma EndAddsNoCall(h: Hsm, now: Time)
    ensures RegisterCalled in EndMetric(h, Registering, now).trace ==> RegisterCalled in h.trace
  {
  }

  lemma MayBootReads(a: Status, b: Status, spec: Spec)
    requires a.state == b.state && a.health == b.health
    ensures MayBootImage(a, spec) == MayBootImage(b, spec)
  {
  }

  /** A failure to register is reported with its message whenever the node was asked, and nothing else is done. */
  lemma PassReportsNode(s: Status, finalizer: bool, env: Inputs)
    requires Sane(Start(s, finalizer), env) && RegisterCalled in ReconcileState(s, finalizer, env).h.trace
    ensures ReportsNode(s, env, ReconcileState(s, finalizer, env))
  {
    hide EnsureRegistered, Handle, Deferred, Attempt, AttemptAttached, Redeploys, Follows, ReportsNode;
    var h := Start(s, finalizer);
    AttemptAttempted(h, env);
    DeferredTrace(Attempt(h, env), s.state, env);
    var d := GuardsPassed(h, env, RegisterCalled);
    AttachedReports(d, env);
    if Attempt(h, env).h.next != s.state {
      OnlyFailuresMatter(s, env, Attempt(h, env), ReconcileState(s, finalizer, env));
    }
  }

  /** What completes has not failed to register. */
  lemma OnlyFailuresMatter(s: Status, env: Inputs, a: Step, b: Step)
    requires ReportsNode(s, env, a) && a.result == ActionComplete
    ensures ReportsNode(s, env, b)
  {
    hide MayBootImage;
  }

  lemma AttachedReports(d: Hsm, env: Inputs)
    requires AtStart(d) && env.clock.registerBegin != 0 && RegisterCalled !in d.trace && HealthInv(d.status)
    requires d.status.health.errorType != DetachError && RegisterCalled in AttemptAttached(d, env).h.trace
    requires env.meta.deleting ==> d.status.state in {Deprovisioning, PoweringOffBeforeDelete, Deleting}
    ensures ReportsNode(d.status, env, AttemptAttached(d, env))
  {
    hide EnsureRegistered, Handle, MayBootImage, Moves, Accounts, Concludes;
    EnsureRegisteredEnrolls(d, env);
    var r := EnsureRegistered(d, env);
    if r.result == NoAction {
      HandlersNeedCommittedCredentials(d, env);
      HandlerHandled(r.h, env);
    }
    EnsureReports(d, env);
  }

  /** The node is only looked at with credentials, and not in the states that do without registration: before it, on the
      way out, where the profile is matched, and where the inspection is disabled. */
  lemma RegistersOnlyWhereNeeded(s: Status, finalizer: bool, env: Inputs)
    requires Sane(Start(s, finalizer), env) && RegisterCalled in ReconcileState(s, finalizer, env).h.trace
    ensures env.haveCreds && s.state !in {NoState, Unmanaged, MatchProfile, Deleting}
    ensures !(s.state == Inspecting && (env.spec.inspectionDisabled || env.meta.inspect == InspectDisabled))
  {
    hide EnsureRegistered, Handle, Deferred, Attempt, AttemptAttached, Redeploys, Follows;
    var h := Start(s, finalizer);
    AttemptAttempted(h, env);
    DeferredTrace(Attempt(h, env), s.state, env);
    var d := GuardsPassed(h, env, RegisterCalled);
    AskedOnRegistration(d, env);
  }

  lemma AskedOnRegistration(d: Hsm, env: Inputs)
    requires AtStart(d) && env.clock.registerBegin != 0 && RegisterCalled !in d.trace && HealthInv(d.status)
    requires d.status.health.errorType != DetachError && RegisterCalled in AttemptAttached(d, env).h.trace
    requires env.meta.deleting ==> d.status.state in {Deprovisioning, PoweringOffBeforeDelete, Deleting}
    ensures RegistersIn(d, env)
  {
    hide RegisterHost, Handle, Moves, Accounts, Concludes;
    if !RegistersIn(d, env) {
      EnsureRegisteredEnrolls(d, env);
      HandlersNeedCommittedCredentials(d, env);
      HandlerHandled(d, env);
    }
  }

  // ----- the work of the handlers -----

  /** The answer of the provisioner that the handler of a state depends on, and the type of error that a failure is. */
  datatype Work = NoWork | Work(answer: Answer, errorType: ErrorType)

  function WorkOf(s: Status, env: Inputs): Work {
    var a := env.answers;
    match s.state
    case Inspecting =>
      if env.spec.inspectionDisabled || env.meta.inspect == InspectDisabled then NoWork
      else Work(a.inspect, InspectionError)
    case Provisioning =>
      if s.health.errorType != NoError || Contradicted(env.spec, s.deployed) then NoWork
      else if s.hardwareProfile !in env.profiles then NoWork
      else if a.imageAuthError.Some? then Work(Result(false, 0, a.imageAuthError.value), ProvisioningError)
      else Work(a.provision, ProvisioningError)
    case Provisioned =>
      if Contradicted(env.spec, s.deployed) || a.adopt.Complete() then NoWork
      else Work(a.adopt, ProvisionedRegistrationError)
    case ExternallyProvisioned =>
      if !env.spec.externallyProvisioned || a.adopt.Complete() then NoWork
      else Work(a.adopt, ProvisionedRegistrationError)
    case Deprovisioning =>
      if Adopts(s) && !a.adopt.Complete() then Work(a.adopt, ProvisionedRegistrationError)
      else Work(a.deprovision, ProvisioningError)
    case PoweringOffBeforeDelete =>
      if env.spec.disablePowerOff then NoWork else Work(a.powerChange, PowerManagementError)
    case _ => NoWork
  }

  /** How the work goes: an error changes nothing and has the round repeated; a failure is recorded with its message and
      counted; and while work goes on no error is shown, which is saved if one was. A deletion may go on regardless. */
  predicate ReportsWork(s: Status, r: Step, to: State, w: Work) {
    w.Work? ==>
      && (w.answer.Error? ==>
            r.h.status.health == s.health
            && (r.result == ActionError(w.answer.needsRegistration) || to == Deleting))
      && (w.answer.Result? && w.answer.message != NoMessage ==>
            && r.h.status.health == Health(ErrorStatus, w.errorType, w.answer.message, s.health.errorCount + 1)
            && (r.result == ActionFailed(w.errorType, s.health.errorCount + 1)
                || to in {PoweringOffBeforeDelete, Deleting}))
      && (w.answer.Result? && w.answer.message == NoMessage && w.answer.dirty
          && to == s.state && !r.result.ActionError? && AnnotationsCleared !in r.h.trace ==>
            && r.h.status.health == Health(OK, NoError, NoMessage, s.health.errorCount)
            && (s.health != r.h.status.health ==> r.result.ActionUpdate?))
  }

  lemma InspectingReports(g: Hsm, env: Inputs)
    requires Aligned(g) && g.status.state == Inspecting && AnnotationsCleared !in g.trace
    ensures ReportsWork(g.status, Handle(g, env), Handle(g, env).h.next, WorkOf(g.status, env))
  {
  }

  lemma ProvisioningReports(g: Hsm, env: Inputs)
    requires Aligned(g) && g.status.state == Provisioning && AnnotationsCleared !in g.trace
    ensures ReportsWork(g.status, Handle(g, env), Handle(g, env).h.next, WorkOf(g.status, env))
  {
    hide Contradicted, Cancelled;
    CancelledMeansContradicted(env.spec, g.status.deployed);
  }

  lemma ProvisionedReports(g: Hsm, env: Inputs)
    requires Aligned(g) && g.status.state in {Provisioned, ExternallyProvisioned} && AnnotationsCleared !in g.trace
    ensures ReportsWork(g.status, Handle(g, env), Handle(g, env).h.next, WorkOf(g.status, env))
  {
    hide Contradicted, Cancelled, ManagePower;
    CancelledMeansContradicted(env.spec, g.status.deployed);
  }

  lemma DeprovisioningReports(g: Hsm, env: Inputs)
    requires Aligned(g) && g.status.state == Deprovisioning && AnnotationsCleared !in g.trace
    ensures ReportsWork(g.status, Handle(g, env), Handle(g, env).h.next, WorkOf(g.status, env))
  {
    hide Deprovision, Adopts;
    DeprovisionReportsWork(Log(g, HandlerRun(Deprovisioning)), env);
  }

  lemma DeprovisionReportsWork(h: Hsm, env: Inputs)
    requires h.status.state == Deprovisioning && AnnotationsCleared !in h.trace
    ensures var r := Deprovision(h, env);
            && ReportsWork(h.status, r, Deprovisioning, WorkOf(h.status, env)) && r.h.next == h.next
            && (r.result == ActionComplete ==>
                  && env.answers.deprovision.Complete() && (Adopts(h.status) ==> env.answers.adopt.Complete()))
  {
  }

  lemma PoweringOffReports(g: Hsm, env: Inputs)
    requires Aligned(g) && g.status.state == PoweringOffBeforeDelete && AnnotationsCleared !in g.trace
    ensures ReportsWork(g.status, Handle(g, env), Handle(g, env).h.next, WorkOf(g.status, env))
  {
  }

  /** Whenever the handler of a host runs that is being inspected, provisioned, deprovisioned or powered off, or adopted
      once more, what the provisioner answers is reported. */
  lemma PassReportsWork(s: Status, finalizer: bool, env: Inputs)
    requires Sane(Start(s, finalizer), env) && HasRoom(env)
    requires HandlerRun(s.state) in ReconcileState(s, finalizer, env).h.trace
    ensures var m := ReconcileState(s, finalizer, env);
            ReportsWork(s, m, m.h.status.state, WorkOf(s, env))
  {
    hide ReconcileState, Handle, HealthInv, WorkOf, Attempt;
    var g := HandlerGets(s, finalizer, env);
    assert WorkOf(g.status, env) == WorkOf(s, env) by { WorkReads(g.status, s, env); }
    HandlerReports(g, env);
  }

  lemma WorkReads(a: Status, b: Status, env: Inputs)
    requires a == b.(tried := a.tried, id := a.id, good := a.good)
    ensures WorkOf(a, env) == WorkOf(b, env)
  {
  }

  lemma HandlerReports(g: Hsm, env: Inputs)
    requires Aligned(g) && AnnotationsCleared !in g.trace
    ensures ReportsWork(g.status, Handle(g, env), Handle(g, env).h.next, WorkOf(g.status, env))
  {
    hide Handle, ReportsWork, Contradicted;
    match g.status.state {
      case Inspecting => InspectingReports(g, env);
      case Provisioning => ProvisioningReports(g, env);
      case Provisioned => ProvisionedReports(g, env);
      case ExternallyProvisioned => ProvisionedReports(g, env);
      case Deprovisioning => DeprovisioningReports(g, env);
      case PoweringOffBeforeDelete => PoweringOffReports(g, env);
      case _ => NothingReported(g.status, Handle(g, env));
    }
  }

  lemma NothingReported(s: Status, r: Step)
    ensures ReportsWork(s, r, r.h.next, NoWork)
  {
  }

  // ----- nothing is forgotten -----

  /** The result has the host saved or is an error, or the step changed nothing, or read the server's status back. */
  predicate Remembers(h: Hsm, r: Step) {
    Dirty(r.result) || r.result.ActionError? || r.h.status == h.status || r.h.status == h.server
  }

  lemma WorkRemembers(h: Hsm, env: Inputs)
    ensures Remembers(h, Inspect(h, env)) && Remembers(h, Provision(h, env)) && Remembers(h, DeleteHost(h, env))
    ensures Remembers(h, PowerOffBeforeDeleting(h, env)) && Remembers(h, DetachHost(h, env))
  {
    hide Deployed;
  }

  lemma DeprovisionRemembers(h: Hsm, env: Inputs)
    ensures Remembers(h, Deprovision(h, env))
  {
  }

  lemma PrepareRemembers(h: Hsm, env: Inputs)
    ensures Remembers(h, PrepareHost(h, env))
  {
    hide CallPrepare, Save, WantedHints, Clear;
  }

  lemma ServiceRemembers(h: Hsm, env: Inputs, settingsOnReboot: bool, updatesOnReboot: bool)
    requires Aligned(h)
    ensures var r := Service(h, env, settingsOnReboot, updatesOnReboot);
            Remembers(h, r) && (r.result == NoAction ==> r.h == h)
  {
  }

  lemma ManagePowerRemembers(h: Hsm, env: Inputs)
    requires Aligned(h)
    ensures Remembers(h, ManagePower(h, env))
  {
    hide Service, GateVerdict;
    if env.answers.policy.Policy? {
      ServiceRemembers(h, env, env.answers.policy.settingsOnReboot, env.answers.policy.updatesOnReboot);
    }
  }

  lemma HandlerRemembers(g: Hsm, env: Inputs)
    requires Aligned(g)
    ensures var r := Handle(g, env);
            Dirty(r.result) || r.result.ActionError? || r.h.status in {g.status, g.server}
  {
    hide Inspect, PrepareHost, Provision, Deprovision, PowerOffBeforeDeleting, DeleteHost, ManagePower, Deployed,
         Fixpoint, WantedHints, Cancelled, NeedsProvisioning;
    var h := Log(g, HandlerRun(g.status.state));
    WorkRemembers(h, env);
    DeprovisionRemembers(h, env);
    PrepareRemembers(h, env);
    ManagePowerRemembers(h, env);
  }

  /** Waiting for registration changes the credentials to be tried at most. */
  lemma RegistrationWaits(h: Hsm, env: Inputs)
    ensures var r := RegisterHost(h, env);
            r.result.ActionContinue? ==> r.h.status == h.status.(tried := r.h.status.tried)
  {
    hide FindImage;
    FindImageWaits(h, env, false);
    FindImageWaits(NoteTried(h, env), env, true);
  }

  lemma FindImageWaits(h: Hsm, env: Inputs, credsChanged: bool)
    ensures var r := FindImage(h, env, credsChanged);
            r.result.ActionContinue? ==> r.h.status == h.status
  {
    hide RegisterNode;
    var wantsImage := env.answers.register.wantsImage && UsesImage(env.spec, h.status);
    NodeWaits(Log(h, RegisterCalled), env, wantsImage, credsChanged);
  }

  lemma NodeWaits(h: Hsm, env: Inputs, wantsImage: bool, credsChanged: bool)
    ensures var r := RegisterNode(h, env, wantsImage, credsChanged);
            r.result.ActionContinue? ==> r.h.status == h.status
  {
    hide MatchProfileAndCommit;
    var id := if env.answers.register.register.Registered? then env.answers.register.register.id else "";
    CommitDoesNotWait(h.(status := RecordID(h.status, id)), env);
  }

  lemma CommitDoesNotWait(h: Hsm, env: Inputs)
    ensures !MatchProfileAndCommit(h, env).result.ActionContinue?
  {
    hide Match, NewProfile;
  }

  /** The status is that of the server but for the credentials to be tried, the node ID and the register metric. */
  predicate Unreported(s: Status, after: Status) {
    after == s.(tried := after.tried, id := after.id, history := s.history.(register := after.history.register))
  }

  lemma RegistrationRemembers(h: Hsm, env: Inputs)
    requires AtStart(h) && env.clock.registerBegin != 0
    ensures var r := EnsureRegistered(h, env);
            r.result != NoAction && !Dirty(r.result) && !r.result.ActionError? ==> Unreported(h.status, r.h.status)
  {
    hide RegisterHost, Match, RetryRegistration, EndMetric;
    RetryTouchesMetric(h, env);
    RegistrationWaits(RetryRegistration(h, env), env);
    EnsureRegisteredEnrolls(h, env);
    RegisterEffect(RetryRegistration(h, env), env);
  }

  lemma AttachedRemembers(h: Hsm, env: Inputs)
    requires AtStart(h) && env.clock.registerBegin != 0
    ensures var r := AttemptAttached(h, env);
            Dirty(r.result) || r.result.ActionError? || Unreported(h.status, r.h.status)
  {
    hide EnsureRegistered, Handle;
    RegistrationRemembers(h, env);
    var r := EnsureRegistered(h, env);
    if r.result == NoAction {
      HandlersNeedCommittedCredentials(h, env);
      EnsureRegisteredEnrolls(h, env);
      HandlerRemembers(r.h, env);
      if h.status.state == Registering {
        RegisteringIsDirty(r.h, env);
      }
    }
  }

  lemma RegisteringIsDirty(g: Hsm, env: Inputs)
    requires g.status.state == Registering
    ensures Dirty(Handle(g, env).result)
  {
  }

  /** A pass that changes the host ends with a result that has it saved, or with an error, after which the round is
      repeated: but for the credentials to be tried, the node ID and the register metric, no change is forgotten. */
  lemma NothingIsForgotten(s: Status, finalizer: bool, env: Inputs)
    requires Sane(Start(s, finalizer), env)
    ensures var m := ReconcileState(s, finalizer, env);
            Dirty(m.result) || m.result.ActionError? || Unreported(s, m.h.status)
  {
    hide AttemptAttached, DetachHost, HealthInv, Redeploys, Follows, Deferred, Unreported, Enter;
    var h := Start(s, finalizer);
    AttemptAttempted(h, env);
    DeferredUpdate(h, Attempt(h, env), env);
    AttemptRemembers(h, env);
  }

  lemma AttemptRemembers(h: Hsm, env: Inputs)
    requires AtStart(h) && env.clock.registerBegin != 0
    ensures var r := Attempt(h, env);
            Dirty(r.result) || r.result.ActionError? || Unreported(h.status, r.h.status)
  {
    hide AttemptAttached, DetachHost, Unreported, InitiatedState;
    var d := CheckDelayedHost(h, env).h;
    WorkRemembers(d, env);
    assert Unreported(h.status, h.status) by { NothingChanged(h.status); }
    if AtStart(d) {
      DetachedAttempted(d, env);
      AttachedRemembers(d, env);
    }
  }

  lemma NothingChanged(s: Status)
    ensures Unreported(s, s)
  {
  }
}
