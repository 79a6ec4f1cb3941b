/** Refusals of capacity prolong a deletion without end: the bound on its failures is reached for every number of
    them. */
module RefusedDeletion {
  import opened HostTypes
  import opened ActionResults
  import opened Actions
  import opened StateMachine
  import opened Deletion
  import opened Enrolment

  // ----- the rounds of the deletion -----

  /** A deletion in which the BMC's network data cannot be read; `free` is the answer of the capacity check. */
  function Failing(env: Inputs, free: bool, message: Message): Inputs {
    env.(haveCreds := true,
         meta := env.meta.(deleting := true, detached := NotDetached),
         answers := env.answers.(capacityBefore := Capacity(free), capacityAfter := Capacity(true),
                                 register := env.answers.register.(networkDataError := Some(message))))
  }

  function FailingRound(env: Inputs, free: bool): Round {
    Round(Failing(env, free, Text("no network data")), false, None, true, false, true)
  }

  /** A host in Deprovisioning that has failed `count` times, with its error shown or not. */
  predicate Stuck(s: Status, env: Inputs, count: nat) {
    && s.state == Deprovisioning && s.health.errorCount == count && Match(s.tried, env.secret)
    && s.health.op in {OK, ErrorStatus} && s.health.errorType in {NoError, RegistrationError}
  }

  /** As Stuck, with the error hidden behind a delay. */
  predicate Hidden(s: Status, env: Inputs, count: nat) {
    && s.state == Deprovisioning && s.health.errorCount == count && Match(s.tried, env.secret)
    && s.health.op == Delayed && s.health.errorType == RegistrationError
  }

  /** What a round does: the status it saves, the failure it records and the refusal. */
  predicate Does(s: Status, r: Round, failures: nat, refusals: nat) {
    FailuresSaved(s, r) == failures && RefusalsSaved(s, r) == refusals
  }

  lemma RegistrationFails(h: Hsm, env: Inputs)
    requires env.haveCreds && h.status.state == Deprovisioning && h.next == Deprovisioning
    requires Match(h.status.tried, env.secret) && !env.answers.register.formatsError && !env.answers.register.wantsImage
    requires env.answers.register.networkDataError == Some(Text("no network data"))
    ensures var r := EnsureRegistered(h, env);
            && r.result.ActionFailed? && r.h.failures == h.failures + 1 && r.h.next == h.next
            && r.h.status.state == h.status.state && r.h.status.tried == h.status.tried
            && r.h.status.health ==
               Health(ErrorStatus, RegistrationError, Text("no network data"), h.status.health.errorCount + 1)
  {
    hide SetMetric, MetricFor, Match;
  }

  lemma FailureCounts(s: Status, env: Inputs, count: nat)
    requires Stuck(s, env, count) && (s.health.errorType == RegistrationError ==> count <= 3)
    requires !env.answers.register.formatsError && !env.answers.register.wantsImage
    ensures var (r, after) := (FailingRound(env, true), Reconcile(s, FailingRound(env, true)).status);
            && Stuck(after, env, count + 1) && after.health.errorType == RegistrationError
            && after.health.op == ErrorStatus && Does(s, r, 1, 0)
  {
    hide EnsureRegistered, Match;
    var e := Failing(env, true, Text("no network data"));
    var h := Log(Start(s, true), CapacityChecked(true));
    RegistrationFails(h, e);
  }

  lemma RefusalHides(s: Status, env: Inputs, count: nat)
    requires Stuck(s, env, count) && s.health.errorType == RegistrationError
    ensures var (r, after) := (FailingRound(env, false), Reconcile(s, FailingRound(env, false)).status);
            Hidden(after, env, count) && Does(s, r, 0, 1)
  {
    hide AttemptUndelayed, Match;
  }

  lemma CapacityClears(s: Status, env: Inputs, count: nat)
    requires Hidden(s, env, count)
    ensures var (r, after) := (FailingRound(env, true), Reconcile(s, FailingRound(env, true)).status);
            Stuck(after, env, count) && after.health.errorType == NoError && Does(s, r, 0, 0)
  {
    hide AttemptUndelayed, Match;
  }

  // ----- the way to the deletion -----

  function Unadopted(env: Inputs): Inputs {
    env.(spec := env.spec.(externallyProvisioned := false))
  }

  lemma UnadoptedIsProvisioned(h: Hsm, env: Inputs)
    requires h.status.state == ExternallyProvisioned && !env.spec.externallyProvisioned && InOrder(h.status, env)
    ensures var r := AttemptAttached(h, env);
            && r.result == ActionComplete && r.h.next == Provisioned
            && r.h.status == h.status.(deployed := Deployed(env.spec, h.status.deployed))
  {
    hide EnsureRegistered, Deployed;
    NothingToRegister(h, env);
  }

  lemma EnterProvisioned(h: Hsm, env: Inputs)
    requires h.next == Provisioned && h.status.state == ExternallyProvisioned
    ensures Enter(h, ExternallyProvisioned, env).status == h.status.(state := Provisioned)
  {
  }

  lemma AdoptionEnds(env: Inputs)
    requires Enlists(env) && env.spec.externallyProvisioned
    ensures var s := Enrolled(env);
            var after := Reconcile(s, Plain(Unadopted(env), s)).status;
            after.state == Provisioned && after.health == s.health && after.tried == s.tried
  {
    hide AttemptAttached, Enter, Deployed, Reconcile, Enlists, InOrder;
    var s := Enrolled(env);
    var e := Plain(Unadopted(env), s).env;
    assert LeftAlone(e) && InOrder(s, e) by { StaysRegistered(env); }
    PassIsSaved(s, Unadopted(env));
    UnadoptedIsProvisioned(Start(s, true), e);
    EnterProvisioned(AttemptAttached(Start(s, true), e).h, e);
  }

  lemma StaysRegistered(env: Inputs)
    requires Enlists(env) && env.spec.externallyProvisioned
    ensures var e := Plain(Unadopted(env), Enrolled(env)).env;
            LeftAlone(e) && InOrder(Enrolled(env), e) && Enrolled(env).health == Health(OK, NoError, NoMessage, 0)
  {
  }

  lemma DeletionStarts(s: Status, env: Inputs)
    requires s.state == Provisioned && s.health == Health(OK, NoError, NoMessage, 0) && Match(s.tried, env.secret)
    ensures Stuck(Reconcile(s, FailingRound(env, true)).status, env, 0)
    ensures Reconcile(s, FailingRound(env, true)).status.health.errorType == NoError
  {
    hide AttemptAttached, Match, SetMetric, MetricFor, CheckDetachedHost;
  }

  // ----- counting -----

  lemma {:induction false} CountsKeep(states: seq<Status>, rounds: seq<Round>, s: Status, r: Round, i: nat, j: nat)
    requires |states| == |rounds| + 1 && i <= j <= |rounds|
    ensures FailuresIn(states + [s], rounds + [r], Deprovisioning, i, j) ==
            FailuresIn(states, rounds, Deprovisioning, i, j)
    ensures RefusalsIn(states + [s], rounds + [r], i, j) == RefusalsIn(states, rounds, i, j)
  {
    hide FailuresSaved, RefusalsSaved;
    if i < j {
      CountsKeep(states, rounds, s, r, i, j - 1);
    }
  }

  /** A run of a new host in which, since a deletion was requested with the round after the fifth, so many failures and
      refusals were recorded in Deprovisioning. */
  ghost predicate Reaches(states: seq<Status>, rounds: seq<Round>, failures: nat, refusals: nat) {
    && Run(states, rounds) && states[0] == FRESH && 5 <= |rounds|
    && UndisturbedBetween(rounds, 5, |rounds|) && FreeOfDetachError(states[5])
    && FailuresIn(states, rounds, Deprovisioning, 5, |rounds|) == failures
    && RefusalsIn(states, rounds, 5, |rounds|) == refusals
  }

  lemma ReachesOn(states: seq<Status>, rounds: seq<Round>, r: Round, failures: nat, refusals: nat, f: nat, x: nat)
    requires Reaches(states, rounds, failures, refusals)
    requires var s := states[|rounds|];
             && WellFormed(r, s) && Undisturbed(r.env) && RefusalsSaved(s, r) == x
             && (if s.state == Deprovisioning then FailuresSaved(s, r) == f else f == 0)
    ensures Reaches(states + [Reconcile(states[|rounds|], r).status], rounds + [r], failures + f, refusals + x)
  {
    hide Reconcile, WellFormed, FailuresSaved, RefusalsSaved, Undisturbed;
    RunGoesOn(states, rounds, r);
    CountsKeep(states, rounds, Reconcile(states[|rounds|], r).status, r, 5, |rounds|);
  }

  // ----- the runs -----

  const ADOPTED := EXAMPLE.(spec := EXAMPLE.spec.(externallyProvisioned := true))

  lemma AdoptedEnlists()
    ensures Enlists(ADOPTED) && RegistersHosts(ADOPTED)
  {
  }

  /** A new host is enrolled, adopted, provisioned and then to be deleted. */
  lemma DeletionIsReached() returns (states: seq<Status>, rounds: seq<Round>)
    ensures Reaches(states, rounds, 0, 0) && EndsStuck(states, 0)
  {
    hide Reconcile, Enlists;
    AdoptedEnlists();
    NewHostIsEnrolled(ADOPTED);
    AdoptionEnds(ADOPTED);
    var s4 := Enrolled(ADOPTED);
    var r4 := Plain(Unadopted(ADOPTED), s4);
    var s5 := Reconcile(s4, r4).status;
    assert s4.health == Health(OK, NoError, NoMessage, 0) && Match(s4.tried, ADOPTED.secret);
    assert WellFormed(r4, s4);
    RunGoesOn(EnrolmentStates(ADOPTED), EnrolmentRounds(ADOPTED), r4);
    states, rounds := EnrolmentStates(ADOPTED) + [s5], EnrolmentRounds(ADOPTED) + [r4];
    assert states[5] == s5 && Reaches(states, rounds, 0, 0);
    var r5 := FailingRound(ADOPTED, true);
    DeletionStarts(s5, ADOPTED);
    ReachesOn(states, rounds, r5, 0, 0, 0, 0);
    states, rounds := states + [Reconcile(s5, r5).status], rounds + [r5];
  }

  /** The last status of a run is that of a host stuck after so many failures, with its error shown. */
  predicate EndsStuck(states: seq<Status>, count: nat) {
    && states != [] && Stuck(states[|states| - 1], ADOPTED, count)
    && states[|states| - 1].health.errorType == if count == 0 then NoError else RegistrationError
  }

  /** One more round of the deletion. */
  lemma FailsOn(states: seq<Status>, rounds: seq<Round>, free: bool, failures: nat, refusals: nat)
    returns (more: seq<Status>, moreRounds: seq<Round>)
    requires states != [] && states[|states| - 1].state == Deprovisioning && Reaches(states, rounds, failures, refusals)
    ensures var (s, r) := (states[|states| - 1], FailingRound(ADOPTED, free));
            && more == states + [Reconcile(s, r).status]
            && Reaches(more, moreRounds, failures + FailuresSaved(s, r), refusals + RefusalsSaved(s, r))
  {
    hide Reconcile, FailuresSaved, RefusalsSaved, UndisturbedBetween, FailuresIn, RefusalsIn;
    var (s, r) := (states[|states| - 1], FailingRound(ADOPTED, free));
    assert s == states[|rounds|];
    ReachesOn(states, rounds, r, failures, refusals, FailuresSaved(s, r), RefusalsSaved(s, r));
    more, moreRounds := states + [Reconcile(s, r).status], rounds + [r];
  }

  /** Four failures without any refusal. */
  lemma {:induction false} FourFailures(n: nat) returns (states: seq<Status>, rounds: seq<Round>)
    requires n <= 4
    ensures Reaches(states, rounds, n, 0) && EndsStuck(states, n)
  {
    hide Reconcile, Reaches, FailuresSaved, RefusalsSaved;
    if n == 0 {
      states, rounds := DeletionIsReached();
    } else {
      states, rounds := FourFailures(n - 1);
      AdoptedEnlists();
      FailureCounts(states[|states| - 1], ADOPTED, n - 1);
      states, rounds := FailsOn(states, rounds, true, n - 1, 0);
    }
  }

  /** For every number of refusals there is a run of a new host that has recorded as many failures in Deprovisioning as
      the bound allows: four, and one for each refusal. */
  lemma {:induction false} RefusalsProlongDeletion(n: nat) returns (states: seq<Status>, rounds: seq<Round>)
    ensures Reaches(states, rounds, 4 + n, n) && EndsStuck(states, 4 + n)
  {
    hide Reconcile, Reaches, FailuresSaved, RefusalsSaved;
    if n == 0 {
      states, rounds := FourFailures(4);
    } else {
      states, rounds := RefusalsProlongDeletion(n - 1);
      AdoptedEnlists();
      RefusalHides(states[|states| - 1], ADOPTED, 3 + n);
      states, rounds := FailsOn(states, rounds, false, 3 + n, n - 1);
      CapacityClears(states[|states| - 1], ADOPTED, 3 + n);
      states, rounds := FailsOn(states, rounds, true, 3 + n, n);
      FailureCounts(states[|states| - 1], ADOPTED, 3 + n);
      states, rounds := FailsOn(states, rounds, true, 3 + n, n);
    }
  }
}
