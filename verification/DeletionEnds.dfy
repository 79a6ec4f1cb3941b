/** A deletion ends: when every call has a final answer, the finalizer is gone after a bounded number of rounds. */
module DeletionEnds {
  import opened HostTypes
  import opened ActionResults
  import opened IronicPrepare
  import opened Actions
  import opened StateMachine
  import opened Registration
  import opened Pass
  import opened Deletion

  /** The answer is a success or a failure, but not an error, and nothing goes on. */
  predicate Final(a: Answer) {
    a.Result? && !a.dirty
  }

  /** Registration is answered finally, or fails for want of an image or network data. */
  predicate FinalRegistration(a: RegisterAnswers) {
    && !a.formatsError && !a.image.ImageLookupError?
    && a.register.Registered? && Final(a.register.result)
  }

  /** The inputs that the measure reads. */
  predicate Known(ref: Inputs, env: Inputs) {
    && env.spec == ref.spec && env.profiles == ref.profiles && env.fallbackProfile == ref.fallbackProfile
    && env.secret == ref.secret
  }

  /** The inputs of a deletion with capacity, final answers and everything that it needs; spec, profiles and secret are
      those of `ref`. */
  predicate DecisiveInputs(ref: Inputs, env: Inputs) {
    var a := env.answers;
    && Known(ref, env) && Undisturbed(env) && !env.meta.anyReboot
    && a.capacityBefore == Capacity(true) && a.capacityAfter == Capacity(true)
    && FinalRegistration(a.register)
    && Final(a.adopt) && Final(a.deprovision) && Final(a.powerChange) && Final(a.delete)
    && a.secretsReleased && a.hostUpdated
    && env.clock.registerBegin != 0 && env.clock.registerEnd != 0
  }

  /** A decisive round runs, on a host with its finalizer, and is saved. */
  predicate Decisive(ref: Inputs, r: Round) {
    DecisiveInputs(ref, r.env) && !r.interrupted && r.finalizer && r.saveOk
  }

  // ----- the measure -----

  function Bit(b: bool): nat {
    if b then 1 else 0
  }

  /** What can keep a host in its state: an error from detaching, failures, a profile to record, credentials to commit,
      a register metric to close, a delay, a detachment. */
  function Rest(ref: Inputs, s: Status): nat {
    30 * Bit(s.health.errorType == DetachError) + 5 * Budget(s) + 2 * Bit(NewProfile(ref, s)) +
    Bit(RetriesRegistration(s, ref.secret)) + Bit(s.history.register.Open()) +
    Bit(s.health.op == Delayed) + Bit(s.health.op == Detached)
  }

  /** The rounds that a deletion takes from here, at most. */
  function Measure(ref: Inputs, s: Status): nat {
    100 * (3 - Rank(s.state)) + Rest(ref, s)
  }

  lemma RestIsBounded(ref: Inputs, s: Status)
    ensures Rest(ref, s) <= 56
  {
  }

  // ----- registration -----

  /** What registration decides on: the health, the profile with its hints, and the good credentials. */
  predicate SameProfile(a: Status, b: Status) {
    b.hardwareProfile == a.hardwareProfile && b.settings.rootDeviceHints == a.settings.rootDeviceHints
  }

  /** Registration fails, records a new profile, or leaves no reason to repeat it. */
  predicate Settles(h: Hsm, r: Step, env: Inputs) {
    && r.h.status.history == h.status.history && r.h.next == h.next && r.h.status.state == h.status.state
    && (|| (&& r.result.ActionFailed? && SameProfile(h.status, r.h.status) && r.h.status.good == h.status.good
            && r.h.status.health.op == ErrorStatus && r.h.status.health.errorType == RegistrationError
            && r.h.status.health.errorCount == h.status.health.errorCount + 1)
        || (&& r.result.ActionUpdate? && NewProfile(env, h.status) && !NewProfile(env, r.h.status)
            && r.h.status.health == h.status.health && r.h.status.good == h.status.good)
        || (&& r.result in {NoAction, ActionComplete} && SameProfile(h.status, r.h.status)
            && !RetriesRegistration(r.h.status, env.secret)
            && (r.result == ActionComplete ==> RetriesRegistration(h.status, env.secret))
            && r.h.status.health in {h.status.health, ClearError(h.status).health}))
  }

  lemma CommitSettles(h: Hsm, env: Inputs)
    requires env.meta.deleting
    ensures Settles(h, MatchProfileAndCommit(h, env), env)
  {
  }

  lemma RegisterNodeSettles(h: Hsm, env: Inputs, wantsImage: bool, credsChanged: bool)
    requires env.meta.deleting && FinalRegistration(env.answers.register) && h.status.state != Preparing
    ensures Settles(h, RegisterNode(h, env, wantsImage, credsChanged), env)
  {
    hide MatchProfileAndCommit;
    CommitSettles(h.(status := RecordID(h.status, env.answers.register.register.id)), env);
  }

  lemma FindImageSettles(h: Hsm, env: Inputs, credsChanged: bool)
    requires env.meta.deleting && FinalRegistration(env.answers.register) && h.status.state != Preparing
    ensures Settles(h, FindImage(h, env, credsChanged), env)
  {
    hide RegisterNode;
    var wantsImage := env.answers.register.wantsImage && UsesImage(env.spec, h.status);
    RegisterNodeSettles(Log(h, RegisterCalled), env, wantsImage, credsChanged);
  }

  lemma RegisterSettles(h: Hsm, env: Inputs)
    requires env.meta.deleting && FinalRegistration(env.answers.register) && h.status.state != Preparing
    ensures Settles(h, RegisterHost(h, env), env)
  {
    hide FindImage;
    FindImageSettles(h, env, false);
    FindImageSettles(NoteTried(h, env), env, true);
  }

  lemma ProfileIsKnown(ref: Inputs, env: Inputs, s: Status)
    requires Known(ref, env)
    ensures NewProfile(env, s) == NewProfile(ref, s)
  {
  }

  lemma ProfileStays(ref: Inputs, a: Status, b: Status)
    requires SameProfile(a, b)
    ensures NewProfile(ref, a) == NewProfile(ref, b)
  {
  }

  /** A host in a state that registers and can record failures, with nothing else in the way. */
  predicate Ready(h: Hsm, env: Inputs) {
    && AtStart(h) && h.status.state in {Deprovisioning, PoweringOffBeforeDelete} && Budget(h.status) != 0
    && h.status.health.op !in {Delayed, Detached} && FreeOfDetachError(h.status)
    && env.meta.deleting && FinalRegistration(env.answers.register)
    && env.clock.registerBegin != 0 && env.clock.registerEnd != 0
  }

  /** What a pass that stays where it is has to do: to be saved, and come closer. */
  predicate Advances(ref: Inputs, h: Hsm, r: Step) {
    && Dirty(r.result) && r.h.next == h.next && r.h.status.state == h.status.state
    && Rest(ref, r.h.status) < Rest(ref, h.status)
  }

  lemma RetryOpens(h: Hsm, env: Inputs)
    requires h.next == h.status.state != Registering && env.clock.registerBegin != 0
    ensures var h1 := RetryRegistration(h, env);
            && h1 == h.(status := h.status.(history := h1.status.history))
            && (h1.status.history.register.Open() <==>
                  h.status.history.register.Open() || RetriesRegistration(h.status, env.secret))
  {
  }

  lemma EndCloses(h: Hsm, now: Time)
    requires now != 0
    ensures var r := EndMetric(h, Registering, now);
            && r == h.(status := h.status.(history := r.status.history), trace := r.trace)
            && !r.status.history.register.Open()
  {
  }

  lemma FailureAdvances(ref: Inputs, h: Hsm, r: Step)
    requires h.status.health.op !in {Delayed, Detached} && FreeOfDetachError(h.status) && Budget(h.status) != 0
    requires r.result.ActionFailed? && r.h.next == h.next && r.h.status.state == h.status.state
    requires NewProfile(ref, r.h.status) == NewProfile(ref, h.status)
    requires r.h.status.health.op == ErrorStatus && r.h.status.health.errorCount == h.status.health.errorCount + 1
    requires r.h.status.health.errorType == RegistrationError
             || (r.h.status.health.errorCount <= 3 && FreeOfDetachError(r.h.status))
    ensures Advances(ref, h, r)
  {
    hide NewProfile, RetriesRegistration;
  }

  /** A new profile counts for more than a register metric that is opened. */
  lemma ProfileAdvances(ref: Inputs, a: Status, b: Status)
    requires NewProfile(ref, a) && !NewProfile(ref, b) && b.health == a.health && b.good == a.good
    ensures Rest(ref, b) < Rest(ref, a)
  {
    hide NewProfile, Match;
  }

  /** Success takes away the reason to register, and closes the metric. */
  lemma SuccessAdvances(ref: Inputs, a: Status, b: Status)
    requires SameProfile(a, b) && b.health in {a.health, ClearError(a).health} && Budget(a) != 0
    requires a.health.op !in {Delayed, Detached}
    requires !RetriesRegistration(b, ref.secret) && !b.history.register.Open()
    requires RetriesRegistration(a, ref.secret) || a.history.register.Open()
    ensures Rest(ref, b) < Rest(ref, a)
  {
    hide NewProfile, RetriesRegistration;
    ProfileStays(ref, a, b);
  }

  lemma RegistrationAdvances(ref: Inputs, h: Hsm, env: Inputs)
    requires Known(ref, env) && Ready(h, env)
    ensures EnsureRegistered(h, env).result == NoAction || Advances(ref, h, EnsureRegistered(h, env))
  {
    hide RegisterHost, RetryRegistration, EndMetric, NewProfile, Match, RegistersIn, FinalRegistration, Rest, Budget;
    var h1 := RetryRegistration(h, env);
    RetryOpens(h, env);
    RegisterSettles(h1, env);
    var r := RegisterHost(h1, env);
    var ended := EndMetric(r.h, Registering, env.clock.registerEnd);
    EndCloses(r.h, env.clock.registerEnd);
    ProfileStays(ref, h.status, h1.status);
    if r.result.ActionFailed? {
      ProfileStays(ref, h1.status, r.h.status);
      FailureAdvances(ref, h, r);
    } else if r.result.ActionUpdate? {
      ProfileIsKnown(ref, env, h1.status);
      ProfileIsKnown(ref, env, r.h.status);
      ProfileAdvances(ref, h.status, r.h.status);
    } else if RegistersIn(h, env) && EnsureRegistered(h, env).result != NoAction {
      SuccessAdvances(ref, h.status, ended.status);
    }
  }

  // ----- the handlers -----

  /** A pass moves on, or stays and comes closer, or removes the finalizer. */
  predicate GoesOn(ref: Inputs, h: Hsm, r: Step) {
    || !r.h.finalizer
    || (r.result == ActionComplete && Rank(r.h.next) > Rank(h.next) && r.h.status.state == h.status.state)
    || Advances(ref, h, r)
  }

  lemma FinalDeprovision(h: Hsm, env: Inputs)
    requires Final(env.answers.adopt) && Final(env.answers.deprovision) && !env.meta.anyReboot
    ensures var r := Deprovision(h, env);
            && r.h.next == h.next && r.h.status.state == h.status.state
            && (r.result == ActionComplete
                || (&& r.result.ActionFailed? && r.h.status.health.op == ErrorStatus
                    && r.h.status.health.errorCount == h.status.health.errorCount + 1
                    && r.h.status.health.errorType in {ProvisionedRegistrationError, ProvisioningError}
                    && SameProfile(h.status, r.h.status)))
  {
    hide Recorded;
  }

  lemma DeprovisioningGoesOn(ref: Inputs, h: Hsm, env: Inputs)
    requires DecisiveInputs(ref, env) && h.next == h.status.state == Deprovisioning && Budget(h.status) != 0
    requires h.status.health.op !in {Delayed, Detached} && FreeOfDetachError(h.status)
    ensures GoesOn(ref, h, HandleDeprovisioning(h, env))
  {
    hide Deprovision, NewProfile, Rest, Budget;
    FinalDeprovision(h, env);
    var r := HandleDeprovisioning(h, env);
    if r.result.ActionFailed? {
      ProfileStays(ref, h.status, r.h.status);
      FailureAdvances(ref, h, r);
    }
  }

  lemma PoweringOffGoesOn(ref: Inputs, h: Hsm, env: Inputs)
    requires DecisiveInputs(ref, env) && h.next == h.status.state == PoweringOffBeforeDelete && Budget(h.status) != 0
    requires h.status.health.op !in {Delayed, Detached} && FreeOfDetachError(h.status)
    ensures GoesOn(ref, h, HandlePoweringOff(h, env))
  {
    hide NewProfile, Rest, Budget;
    var r := HandlePoweringOff(h, env);
    if r.result.ActionFailed? {
      ProfileStays(ref, h.status, r.h.status);
      FailureAdvances(ref, h, r);
    }
  }

  lemma DeletingEnds(h: Hsm, env: Inputs)
    requires Final(env.answers.delete) && env.answers.secretsReleased && env.answers.hostUpdated
    ensures !HandleDeleting(h, env).h.finalizer && HandleDeleting(h, env).result == DeleteComplete
  {
  }

  /** The measure does not read the credentials tried, the node ID and the trace. */
  lemma RestReads(ref: Inputs, a: Status, b: Status)
    requires b == a.(tried := b.tried, id := b.id)
    ensures Rest(ref, b) == Rest(ref, a)
  {
  }

  lemma AttachedGoesOn(ref: Inputs, h: Hsm, env: Inputs)
    requires DecisiveInputs(ref, env) && Ready(h, env)
    ensures GoesOn(ref, h, AttemptAttached(h, env))
  {
    hide EnsureRegistered, HandleDeprovisioning, HandlePoweringOff, DecisiveInputs, Rest, Budget, Undisturbed,
         FinalRegistration;
    assert Known(ref, env) by { DecisiveIsKnown(ref, env); }
    RegistrationAdvances(ref, h, env);
    EnsureRegisteredEnrolls(h, env);
    var g := EnsureRegistered(h, env).h;
    if EnsureRegistered(h, env).result == NoAction {
      HandlersNeedCommittedCredentials(h, env);
      RestReads(ref, h.status, g.status);
      assert Budget(g.status) == Budget(h.status) by { BudgetReads(h.status, g.status); }
      var g1 := Log(g, HandlerRun(g.status.state));
      if h.status.state == Deprovisioning {
        DeprovisioningGoesOn(ref, g1, env);
      } else {
        PoweringOffGoesOn(ref, g1, env);
      }
    }
  }

  lemma BudgetReads(a: Status, b: Status)
    requires b.health == a.health
    ensures Budget(b) == Budget(a)
  {
  }

  lemma DecisiveIsKnown(ref: Inputs, env: Inputs)
    requires DecisiveInputs(ref, env)
    ensures Known(ref, env)
  {
  }

  // ----- a pass -----

  lemma DetachedGoesOn(ref: Inputs, h: Hsm, env: Inputs)
    requires AtStart(h) && Undisturbed(env)
    ensures var r := CheckDetachedHost(h, env);
            if r.result == NoAction then r.h == h && FreeOfDetachError(h.status) && h.status.health.op != Detached
            else Advances(ref, h, r)
  {
    hide NewProfile;
    ProfileStays(ref, h.status, CheckDetachedHost(h, env).h.status);
  }

  lemma InitiationMoves(h: Hsm, env: Inputs)
    requires AtStart(h) && Undisturbed(env) && InitiatedState(h.next, h.status, env.meta).Some?
    ensures Rank(InitiatedState(h.next, h.status, env.meta).value) > Rank(h.next)
  {
  }

  lemma UndelayedGoesOn(ref: Inputs, h: Hsm, env: Inputs)
    requires AtStart(h) && h.finalizer && DecisiveInputs(ref, env) && h.status.health.op != Delayed
    ensures GoesOn(ref, h, AttemptUndelayed(h, env))
  {
    hide AttemptAttached, CheckDetachedHost, Rest, HandleDeleting, FinalRegistration;
    DetachedGoesOn(ref, h, env);
    if InitiatedState(h.next, h.status, env.meta).Some? {
      InitiationMoves(h, env);
    } else if CheckDetachedHost(h, env).result == NoAction {
      DeletionIsolates(h, env);
      if h.status.state == Deleting {
        DeletingAttached(h, env);
      } else {
        AttachedGoesOn(ref, h, env);
      }
    }
  }

  lemma DeletingAttached(h: Hsm, env: Inputs)
    requires h.next == h.status.state == Deleting && Final(env.answers.delete)
    requires env.answers.secretsReleased && env.answers.hostUpdated
    ensures !AttemptAttached(h, env).h.finalizer
  {
    hide HandleDeleting;
    DeletingEnds(Log(h, HandlerRun(Deleting)), env);
  }

  lemma DelayAdvances(ref: Inputs, s: Status)
    requires s.health.op == Delayed
    ensures Rest(ref, ClearError(s)) < Rest(ref, s)
  {
    hide NewProfile;
    ProfileStays(ref, s, ClearError(s));
  }

  lemma AttemptGoesOn(ref: Inputs, h: Hsm, env: Inputs)
    requires AtStart(h) && h.finalizer && DecisiveInputs(ref, env)
    ensures GoesOn(ref, h, Attempt(h, env))
  {
    hide AttemptUndelayed, Rest;
    var d := CheckDelayedHost(h, env);
    if d.result == NoAction {
      UndelayedGoesOn(ref, d.h, env);
    } else {
      DelayAdvances(ref, h.status);
    }
  }

  // ----- rounds and runs -----

  lemma EnterKeeps(h: Hsm, initial: State, env: Inputs)
    ensures Enter(h, initial, env).status.state == h.next && Enter(h, initial, env).finalizer == h.finalizer
  {
  }

  /** A decisive round removes the finalizer or lowers the measure. */
  lemma RoundGoesOn(ref: Inputs, s: Status, r: Round)
    requires Decisive(ref, r)
    ensures var x := Reconcile(s, r);
            !x.finalizer || (x.saved && Measure(ref, x.status) < Measure(ref, s))
  {
    hide Attempt, Enter, Rest;
    var h := Start(s, r.finalizer);
    AttemptGoesOn(ref, h, r.env);
    var a := Attempt(h, r.env);
    EnterKeeps(a.h, s.state, r.env);
    EnterKeeps(Log(a.h, CapacityChecked(true)), s.state, r.env);
    RestIsBounded(ref, Reconcile(s, r).status);
  }

  /** The rounds that a deletion takes at most, by the state and the error count. */
  function RoundsLeft(state: State, errorCount: nat): nat {
    100 * (3 - Rank(state)) + 37 + (if errorCount <= 3 then 5 * (4 - errorCount) else 5)
  }

  lemma MeasureIsBounded(ref: Inputs, s: Status)
    ensures Measure(ref, s) < RoundsLeft(s.state, s.health.errorCount)
  {
    hide NewProfile, Match;
  }

  /** From the i-th round on, the host still has its finalizer when the k-th begins. */
  ghost predicate StillThere(states: seq<Status>, rounds: seq<Round>, i: nat, k: nat)
    requires |states| == |rounds| + 1
  {
    forall j | i <= j < k && j < |rounds| :: Reconcile(states[j], rounds[j]).finalizer
  }

  /** Of n rounds from the i-th, those that still find the finalizer are decisive. */
  ghost predicate DecisiveFrom(ref: Inputs, states: seq<Status>, rounds: seq<Round>, i: nat, n: nat)
    requires |states| == |rounds| + 1 && i + n <= |rounds|
  {
    forall k | i <= k < i + n && StillThere(states, rounds, i, k) :: Decisive(ref, rounds[k])
  }

  /** In a run of decisive rounds, the finalizer goes in one of them before the measure is used up. */
  lemma {:induction false} FinalizerGoes(ref: Inputs, states: seq<Status>, rounds: seq<Round>, i: nat, n: nat)
    returns (j: nat)
    requires Run(states, rounds) && i + n < |rounds| && Measure(ref, states[i]) <= n
    requires DecisiveFrom(ref, states, rounds, i, n + 1)
    ensures i <= j <= i + n && !Reconcile(states[j], rounds[j]).finalizer
    decreases n
  {
    hide Reconcile, Measure, WellFormed, Decisive;
    assert StillThere(states, rounds, i, i);
    RoundGoesOn(ref, states[i], rounds[i]);
    if !Reconcile(states[i], rounds[i]).finalizer {
      j := i;
    } else {
      assert forall k | StillThere(states, rounds, i + 1, k) :: StillThere(states, rounds, i, k);
      j := FinalizerGoes(ref, states, rounds, i + 1, n - 1);
    }
  }

  /** A deletion ends: from any point of any run, after as many decisive rounds as the state and the error count say,
      the finalizer is gone. */
  lemma DeletionEnds(ref: Inputs, states: seq<Status>, rounds: seq<Round>, i: nat) returns (j: nat)
    requires Run(states, rounds) && i < |states|
    requires i + RoundsLeft(states[i].state, states[i].health.errorCount) <= |rounds|
    requires DecisiveFrom(ref, states, rounds, i, RoundsLeft(states[i].state, states[i].health.errorCount))
    ensures i <= j < i + RoundsLeft(states[i].state, states[i].health.errorCount)
    ensures !Reconcile(states[j], rounds[j]).finalizer
  {
    hide Reconcile, Measure, WellFormed, Decisive, RoundsLeft;
    MeasureIsBounded(ref, states[i]);
    j := FinalizerGoes(ref, states, rounds, i, RoundsLeft(states[i].state, states[i].health.errorCount) - 1);
  }
}
