/** A run that enrols a new host without an incident. */
module Enrolment {
  import opened HostTypes
  import opened ActionResults
  import opened IronicPrepare
  import opened Actions
  import opened StateMachine
  import DataImages

  /** The provisioner registers hosts at once and asks for no image. */
  predicate RegistersHosts(env: Inputs) {
    var a := env.answers.register;
    && !a.formatsError && !a.wantsImage && a.networkDataError.None? && !a.resourcesError
    && a.register.Registered? && a.register.result.Complete()
  }

  /** A healthy, registered host: registration has nothing to do or to record. */
  predicate InOrder(s: Status, env: Inputs) {
    && s.health == Health(OK, NoError, NoMessage, 0) && !s.history.register.Open()
    && Match(s.good, env.secret) && Match(s.tried, env.secret)
    && RegistersHosts(env) && env.answers.register.register.id == s.id
    && ProfileName(env, s) in env.profiles && !NewProfile(env, s)
  }

  /** Nobody asks for the host to be deleted or detached. */
  predicate LeftAlone(env: Inputs) {
    !env.meta.deleting && env.meta.detached == NotDetached
  }

  lemma NothingToRegister(h: Hsm, env: Inputs)
    requires InOrder(h.status, env)
    ensures EnsureRegistered(h, env).result == NoAction
    ensures EnsureRegistered(h, env).h == h.(trace := EnsureRegistered(h, env).h.trace)
  {
  }

  /** A round in which nothing around the machine goes wrong. */
  function Plain(env: Inputs, s: Status): Round {
    Round(env.(haveCreds := NeedsCredentials(s.state)), false, None, true, false, true)
  }

  // ----- an example -----

  const DONE := Result(false, 0, NoMessage)

  /** Everything answers at once and well. */
  const GOOD_ANSWERS := Answers(
    Capacity(true), Capacity(true),
    RegisterAnswers(false, false, NoImage, None, Actions.Registered(DONE, "node"), false),
    DONE, DONE, false, true, true, true, Pending(false), Pending(false), true,
    NodeEnv(true, None, Node(NodeAvailable, false, "", NoMessage), "no-raid", TargetSet, OtherSteps(0), Accepted),
    None, DONE, DONE, DONE, PowerUnknown, DataImages.World(None, false),
    DataImages.Answers(false, DataImages.Media(false), true, true, true), Policy(false, false), DONE, false, DONE,
    DONE, true)

  /** A host with a BMC, no wishes and inspection disabled. */
  const EXAMPLE := Inputs(
    Spec(false, None, None, None, None, None, false, Unset, "bmc", "", true, false, false, ""),
    Meta(false, NotDetached, NoInspect, false, false, false), Secret("secret", "default", "1"), false, Clock(1, 1, 1),
    map["unknown" := Hints(0)], "unknown", GOOD_ANSWERS)

  // ----- the statuses of a host that is enrolled -----

  /** A new host with BMC details, a known hardware profile and no inspection to run. */
  predicate Enlists(env: Inputs) {
    && LeftAlone(env) && RegistersHosts(env) && HasBMCDetails(env.spec)
    && ProfileName(env, FRESH) != "" && ProfileName(env, FRESH) in env.profiles
    && (env.spec.externallyProvisioned || InspectionDisabled(env.spec, env.meta))
    && env.clock.registerBegin != 0 && env.clock.registerEnd != 0 && env.clock.transition != 0
  }

  function Seen(env: Inputs): Status {
    FRESH.(state := Registering, bootMode := EffectiveBootMode(env.spec),
           history := FRESH.history.(register := Metric(env.clock.transition, 0)))
  }

  function Profiled(env: Inputs): Status {
    var creds := RecordCredentials(env.secret);
    var id := if env.answers.register.register.Registered? then env.answers.register.register.id else "";
    RecordProfile(env, Seen(env).(tried := creds, id := id))
  }

  function Committed(env: Inputs): Status {
    Profiled(env).(good := RecordCredentials(env.secret), health := Health(OK, NoError, NoMessage, 0))
  }

  function Enrolled(env: Inputs): Status {
    Committed(env).(state := if env.spec.externallyProvisioned then ExternallyProvisioned else Preparing,
                    history := FRESH.history.(register := Metric(env.clock.transition, env.clock.transition)))
  }

  /** For a host in order, the guards before registration have nothing to do. */
  lemma GuardsPass(s: Status, env: Inputs)
    requires LeftAlone(env) && s.health.op in {NoStatus, OK} && s.health.errorType == NoError && !NeedsCapacity(s.state)
    ensures Attempt(Start(s, true), env) == AttemptAttached(Start(s, true), env)
  {
    hide AttemptAttached;
  }

  /** A dirty result of a pass is saved, after the deferred update if the host moves. */
  lemma PassIsSaved(s: Status, env: Inputs)
    requires LeftAlone(env) && s.health.op in {NoStatus, OK} && s.health.errorType == NoError && !NeedsCapacity(s.state)
    ensures var r := Plain(env, s);
            var a := AttemptAttached(Start(s, true), r.env);
            && (Dirty(a.result) && a.h.next == s.state ==> Reconcile(s, r).status == a.h.status)
            && (a.result == ActionComplete && a.h.next != s.state && !NeedsCapacity(a.h.next) ==>
                  Reconcile(s, r).status == Enter(a.h, s.state, r.env).status)
  {
    hide Attempt, AttemptAttached, Enter;
    GuardsPass(s, Plain(env, s).env);
  }

  lemma NoneIsHandled(env: Inputs)
    requires Enlists(env)
    ensures var h := Start(FRESH, true);
            AttemptAttached(h, env) == Step(h.(next := Registering, trace := [HandlerRun(NoState)]), ActionComplete)
  {
  }

  lemma NoneIsSeen(env: Inputs)
    requires Enlists(env)
    ensures Reconcile(FRESH, Plain(env, FRESH)).status == Seen(env)
  {
    hide AttemptAttached, Enter, Attempt, Reconcile;
    var e := Plain(env, FRESH).env;
    NoneIsHandled(e);
    PassIsSaved(FRESH, env);
    EnterRegistering(AttemptAttached(Start(FRESH, true), e).h, e);
  }

  lemma EnterRegistering(h: Hsm, env: Inputs)
    requires h.status == FRESH && h.next == Registering
    ensures Enter(h, NoState, env).status == Seen(env)
  {
  }

  lemma RegisterProfiles(h: Hsm, env: Inputs)
    requires Enlists(env) && env.haveCreds && h.status == Seen(env) && h.next == Registering
    ensures var r := AttemptAttached(h, env);
            r.result == ActionUpdate(0) && r.h.status == Profiled(env) && r.h.next == h.next
  {
    hide RegisterHost, Handle;
    NewHostGetsProfile(h, env);
  }

  lemma NewHostGetsProfile(h: Hsm, env: Inputs)
    requires Enlists(env) && h.status == Seen(env)
    ensures var r := RegisterHost(h, env);
            r.result == ActionUpdate(0) && r.h.status == Profiled(env) && r.h.next == h.next
  {
    hide EffectiveBootMode, MatchProfileAndCommit;
    var noted := Log(NoteTried(h, env), RegisterCalled);
    ProfileIsNew(noted.(status := RecordID(noted.status, env.answers.register.register.id)), env);
  }

  lemma ProfileIsNew(h: Hsm, env: Inputs)
    requires Enlists(env)
    requires h.status == Seen(env).(tried := RecordCredentials(env.secret), id := env.answers.register.register.id)
    ensures var r := MatchProfileAndCommit(h, env);
            r.result == ActionUpdate(0) && r.h == h.(status := Profiled(env))
  {
  }

  lemma RegisterCommits(h: Hsm, env: Inputs)
    requires Enlists(env) && env.haveCreds && h.status == Profiled(env) && h.next == Registering
    ensures var r := AttemptAttached(h, env);
            r.result == ActionUpdate(0) && r.h.status == Committed(env) && r.h.next == h.next
  {
    hide RegisterHost, Handle;
    NewCredentialsAreCommitted(h, env);
  }

  lemma NewCredentialsAreCommitted(h: Hsm, env: Inputs)
    requires Enlists(env) && h.status == Profiled(env)
    ensures var r := RegisterHost(h, env);
            r.result == ActionComplete && r.h.status == Committed(env) && r.h.next == h.next
  {
  }

  lemma RegisterEnds(h: Hsm, env: Inputs)
    requires Enlists(env) && env.haveCreds && h.status == Committed(env) && h.next == Registering
    ensures var r := AttemptAttached(h, env);
            r.result == ActionComplete && r.h.status == Committed(env) && r.h.next == Enrolled(env).state
  {
    hide RegisterHost;
    NothingIsRecorded(h, env);
  }

  lemma NothingIsRecorded(h: Hsm, env: Inputs)
    requires Enlists(env) && h.status == Committed(env)
    ensures RegisterHost(h, env).result == NoAction && RegisterHost(h, env).h == Log(h, RegisterCalled)
  {
  }

  /** The statuses and the rounds of the enrolment. */
  function EnrolmentStates(env: Inputs): seq<Status> {
    [FRESH, Seen(env), Profiled(env), Committed(env), Enrolled(env)]
  }

  function EnrolmentRounds(env: Inputs): seq<Round> {
    [Plain(env, FRESH), Plain(env, Seen(env)), Plain(env, Profiled(env)), Plain(env, Committed(env))]
  }

  lemma EnterEnrolled(h: Hsm, env: Inputs)
    requires Enlists(env) && h.status == Committed(env) && h.next == Enrolled(env).state
    ensures Enter(h, Registering, env).status == Enrolled(env)
  {
  }

  lemma RegisteringSteps(env: Inputs)
    requires Enlists(env)
    ensures Reconcile(Seen(env), Plain(env, Seen(env))).status == Profiled(env)
    ensures Reconcile(Profiled(env), Plain(env, Profiled(env))).status == Committed(env)
    ensures Reconcile(Committed(env), Plain(env, Committed(env))).status == Enrolled(env)
  {
    hide AttemptAttached, Enter, Reconcile, Attempt;
    var e := env.(haveCreds := true);
    assert Seen(e) == Seen(env) && Profiled(e) == Profiled(env) && Committed(e) == Committed(env)
           && Enrolled(e) == Enrolled(env);
    PassIsSaved(Seen(env), env);
    RegisterProfiles(Start(Seen(env), true), e);
    PassIsSaved(Profiled(env), env);
    RegisterCommits(Start(Profiled(env), true), e);
    PassIsSaved(Committed(env), env);
    RegisterEnds(Start(Committed(env), true), e);
    EnterEnrolled(AttemptAttached(Start(Committed(env), true), e).h, e);
  }

  lemma EnrolledIsRegistered(env: Inputs)
    requires Enlists(env)
    ensures InOrder(Enrolled(env), env)
  {
  }

  /** Four rounds enrol a new host. */
  lemma NewHostIsEnrolled(env: Inputs)
    requires Enlists(env)
    ensures Run(EnrolmentStates(env), EnrolmentRounds(env))
  {
    hide Reconcile, Seen, Profiled, Committed, Enrolled;
    NoneIsSeen(env);
    RegisteringSteps(env);
    var (states, rounds) := (EnrolmentStates(env), EnrolmentRounds(env));
    forall i | 0 <= i < |rounds|
      ensures WellFormed(rounds[i], states[i]) && states[i + 1] == Reconcile(states[i], rounds[i]).status
    {
      if i == 0 {
      } else if i == 1 {
      } else if i == 2 {
      } else {
        assert i == 3;
      }
    }
  }

  /** A run goes on from its last status. */
  lemma RunGoesOn(states: seq<Status>, rounds: seq<Round>, r: Round)
    requires Run(states, rounds) && WellFormed(r, states[|rounds|])
    ensures Run(states + [Reconcile(states[|rounds|], r).status], rounds + [r])
  {
    hide Reconcile, WellFormed;
    var after := states + [Reconcile(states[|rounds|], r).status];
    forall i | 0 <= i < |rounds + [r]|
      ensures WellFormed((rounds + [r])[i], after[i]) && after[i + 1] == Reconcile(after[i], (rounds + [r])[i]).status
    {
      assert i < |rounds| ==> after[i] == states[i] && after[i + 1] == states[i + 1];
    }
  }
}
