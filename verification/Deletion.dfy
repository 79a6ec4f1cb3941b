/** Deletion over whole runs: it moves one way, and only so many failures can hold it up. */
module Deletion {
  import opened HostTypes
  import opened ActionResults
  import opened Actions
  import opened StateMachine
  import opened Effects
  import opened Machine
  import opened Registration
  import opened Pass
  import opened Invariants

  // ----- one way -----

  function Rank(state: State): nat {
    match state
    case Deprovisioning => 1
    case PoweringOffBeforeDelete => 2
    case Deleting => 3
    case _ => 0
  }

  lemma RoundKeepsRank(s: Status, r: Round)
    requires HealthInv(s) && WellFormed(r, s) && r.env.meta.deleting
    ensures Rank(Reconcile(s, r).status.state) >= Rank(s.state)
  {
    hide Attempt, Deferred, HealthInv, Redeploys;
    if RunsMachine(s, r) {
      var h := Start(s, r.finalizer);
      AttemptAttempted(h, r.env);
      DeferredUpdate(h, Attempt(h, r.env), r.env);
    }
  }

  /** Between the i-th and the j-th round, all rounds see a deletion request. */
  ghost predicate DeletingBetween(rounds: seq<Round>, i: nat, j: nat) {
    forall k | 0 <= k < |rounds| && i <= k < j :: rounds[k].env.meta.deleting
  }

  /** In every run of a fresh host, once a deletion is requested the rank never decreases. */
  lemma {:induction false} RankNeverDecreases(states: seq<Status>, rounds: seq<Round>, i: nat, j: nat)
    requires Run(states, rounds) && states[0] == FRESH && i <= j < |states| && DeletingBetween(rounds, i, j)
    ensures Rank(states[i].state) <= Rank(states[j].state)
    decreases j
  {
    hide Reconcile, WellFormed;
    if i < j {
      RankNeverDecreases(states, rounds, i, j - 1);
      RunKeepsInvariant(states, rounds, j - 1);
      RoundKeepsRank(states[j - 1], rounds[j - 1]);
    }
  }

  // ----- failures are bounded -----

  /** The number of failures that a host can still record in a state of its deletion: three retries and one more, or
      one more in any case, unless a registration error already ends the retries. */
  function Budget(s: Status): nat {
    if s.health.errorCount <= 3 then 4 - s.health.errorCount
    else if s.health.errorType == RegistrationError && s.health.op != Delayed then 0
    else 1
  }

  /** The failures left in Deprovisioning and in PoweringOffBeforeDelete. */
  function DeprovisioningBudget(s: Status): nat {
    if Rank(s.state) == 0 then 4 else if s.state == Deprovisioning then Budget(s) else 0
  }

  function PoweringOffBudget(s: Status): nat {
    if Rank(s.state) <= 1 then 4 else if s.state == PoweringOffBeforeDelete then Budget(s) else 0
  }

  /** Deletion with nobody asking for the host to be detached. */
  predicate Undisturbed(env: Inputs) {
    env.meta.deleting && env.meta.detached == NotDetached
  }

  /** A host in Deprovisioning is refused capacity, which hides its error. */
  predicate Refuses(s: Status, env: Inputs) {
    s.state == Deprovisioning && env.answers.capacityBefore == Capacity(false)
  }

  predicate FreeOfDetachError(s: Status) {
    s.health.errorType != DetachError
  }

  /** While the host stays where it is, each failure is paid from its budget; a move pays for at most one. */
  predicate Pays(h: Hsm, r: Step) {
    && h.failures <= r.h.failures <= h.failures + 1
    && FreeOfDetachError(r.h.status)
    && r.h.failures - h.failures + (if r.h.next == h.next then Budget(r.h.status) else 0) <= Budget(h.status)
  }

  lemma RegistrationPays(h: Hsm, env: Inputs)
    requires AtStart(h) && env.clock.registerBegin != 0 && Budget(h.status) != 0 && FreeOfDetachError(h.status)
    ensures Pays(h, EnsureRegistered(h, env))
    ensures EnsureRegistered(h, env).result == NoAction ==>
              var r := EnsureRegistered(h, env);
              && Aligned(r.h) && r.h.failures == h.failures && r.h.next == h.next
              && r.h.status.health == h.status.health && r.h.status.state == h.status.state
  {
    hide EnsureRegistered;
    EnsureRegisteredEnrolls(h, env);
    if EnsureRegistered(h, env).result == NoAction {
      HandlersNeedCommittedCredentials(h, env);
    }
  }

  lemma HandlerPays(h: Hsm, env: Inputs)
    requires Aligned(h) && env.meta.deleting && Budget(h.status) != 0 && FreeOfDetachError(h.status)
    ensures h.status.state == Deprovisioning ==> Pays(h, HandleDeprovisioning(h, env))
    ensures h.status.state == PoweringOffBeforeDelete ==> Pays(h, HandlePoweringOff(h, env))
    ensures h.status.state == Deleting ==>
              var r := HandleDeleting(h, env);
              r.h.failures == h.failures && FreeOfDetachError(r.h.status) && r.h.next == h.next
  {
    hide Deprovision, PowerOffBeforeDeleting, DeleteHost;
    DeprovisionEffect(h, env);
    PowerOffEffect(h, env);
    DeleteEffect(h, env);
  }

  /** What a pass over a host being deleted does to its budget: a failure is only possible in a state that has one. */
  predicate Bounded(h: Hsm, r: Step) {
    && FreeOfDetachError(r.h.status)
    && (if Rank(h.status.state) in {1, 2} then Pays(h, r) else r.h.failures == h.failures)
  }

  lemma HandlePays(h: Hsm, env: Inputs)
    requires Aligned(h) && env.meta.deleting && Budget(h.status) != 0 && FreeOfDetachError(h.status)
    requires h.status.state in {Deprovisioning, PoweringOffBeforeDelete}
    ensures Pays(h, Handle(h, env))
  {
    hide HandleDeprovisioning, HandlePoweringOff;
    HandlerPays(Log(h, HandlerRun(h.status.state)), env);
  }

  lemma AttachedBounded(h: Hsm, env: Inputs)
    requires AtStart(h) && env.clock.registerBegin != 0 && env.meta.deleting && FreeOfDetachError(h.status)
    requires h.status.state in {Deprovisioning, PoweringOffBeforeDelete} && Budget(h.status) != 0
    ensures Bounded(h, AttemptAttached(h, env))
  {
    hide EnsureRegistered, Handle;
    RegistrationPays(h, env);
    if EnsureRegistered(h, env).result == NoAction {
      HandlePays(EnsureRegistered(h, env).h, env);
    }
  }

  lemma DeletingBounded(h: Hsm, env: Inputs)
    requires AtStart(h) && env.meta.deleting && FreeOfDetachError(h.status) && h.status.state == Deleting
    ensures Bounded(h, AttemptAttached(h, env))
  {
    hide DeleteHost;
    DeleteEffect(Log(h, HandlerRun(Deleting)), env);
  }

  lemma UndelayedBounded(h: Hsm, env: Inputs)
    requires AtStart(h) && env.clock.registerBegin != 0 && Undisturbed(env) && FreeOfDetachError(h.status)
    requires h.status.health.op != Delayed
    ensures Bounded(h, AttemptUndelayed(h, env))
  {
    hide AttemptAttached, DetachHost;
    if InitiatedState(h.next, h.status, env.meta).None? && CheckDetachedHost(h, env).result == NoAction {
      DeletionIsolates(h, env);
      if h.status.state == Deleting {
        DeletingBounded(h, env);
      } else {
        AttachedBounded(h, env);
      }
    }
  }

  /** A refusal records no failure, and makes room for one more at most. */
  lemma RefusalBounded(h: Hsm, env: Inputs)
    requires AtStart(h) && FreeOfDetachError(h.status) && env.answers.capacityBefore == Capacity(false)
    requires CheckDelayedHost(h, env).result != NoAction
    ensures var r := Attempt(h, env);
            && r.h.failures == h.failures && r.h.next == h.next && FreeOfDetachError(r.h.status)
            && Budget(r.h.status) <= Budget(h.status) + (if h.status.state == PoweringOffBeforeDelete then 0 else 1)
  {
    hide AttemptUndelayed;
  }

  lemma AttemptBounded(h: Hsm, env: Inputs)
    requires AtStart(h) && env.clock.registerBegin != 0 && Undisturbed(env) && FreeOfDetachError(h.status)
    requires env.answers.capacityBefore == Capacity(false) ==> CheckDelayedHost(h, env).result == NoAction
    ensures Bounded(h, Attempt(h, env))
  {
    hide AttemptUndelayed;
    var d := CheckDelayedHost(h, env);
    if d.result == NoAction {
      UndelayedBounded(d.h, env);
    }
  }

  // ----- over whole runs -----

  /** The failures that one round leaves on the server. */
  function FailuresSaved(s: Status, r: Round): nat {
    var x := Reconcile(s, r);
    if x.saved then x.failures else 0
  }

  /** The refusals of capacity that one round leaves on the server. */
  function RefusalsSaved(s: Status, r: Round): nat {
    if Reconcile(s, r).saved && Refuses(s, r.env) then 1 else 0
  }

  predicate Spends(s: Status, r: Round) {
    var after := Reconcile(s, r).status;
    var failures := FailuresSaved(s, r);
    && FreeOfDetachError(after)
    && DeprovisioningBudget(after) + (if s.state == Deprovisioning then failures else 0)
       <= DeprovisioningBudget(s) + RefusalsSaved(s, r)
    && PoweringOffBudget(after) + (if s.state == PoweringOffBeforeDelete then failures else 0) <= PoweringOffBudget(s)
    && (s.state !in {Deprovisioning, PoweringOffBeforeDelete} ==> failures == 0)
  }

  lemma RoundSpends(s: Status, r: Round)
    requires HealthInv(s) && WellFormed(r, s) && Undisturbed(r.env) && FreeOfDetachError(s)
    ensures Spends(s, r)
  {
    hide Attempt, Deferred, HealthInv, Redeploys, CheckDelayedHost, Follows;
    if RunsMachine(s, r) {
      var h := Start(s, r.finalizer);
      if r.env.answers.capacityBefore == Capacity(false) && CheckDelayedHost(h, r.env).result != NoAction {
        RefusalBounded(h, r.env);
      } else {
        AttemptBounded(h, r.env);
      }
      AttemptAttempted(h, r.env);
      DeferredUpdate(h, Attempt(h, r.env), r.env);
      MovesKeepRank(h, Attempt(h, r.env), r.env);
    }
  }

  lemma MovesKeepRank(h: Hsm, a: Step, env: Inputs)
    requires Moves(h, a, env) && env.meta.deleting && h.next == h.status.state
    ensures a.h.next == h.next || Rank(a.h.next) > Rank(h.next)
  {
  }

  /** The failures recorded between the i-th and the j-th round while the host was in a state. */
  function FailuresIn(states: seq<Status>, rounds: seq<Round>, state: State, i: nat, j: nat): nat
    requires |states| == |rounds| + 1 && i <= j <= |rounds|
    decreases j
  {
    if i == j then 0
    else
      FailuresIn(states, rounds, state, i, j - 1) +
      if states[j - 1].state == state then FailuresSaved(states[j - 1], rounds[j - 1]) else 0
  }

  /** The refusals recorded in Deprovisioning between the i-th and the j-th round. */
  function RefusalsIn(states: seq<Status>, rounds: seq<Round>, i: nat, j: nat): nat
    requires |states| == |rounds| + 1 && i <= j <= |rounds|
    decreases j
  {
    if i == j then 0 else RefusalsIn(states, rounds, i, j - 1) + RefusalsSaved(states[j - 1], rounds[j - 1])
  }

  ghost predicate UndisturbedBetween(rounds: seq<Round>, i: nat, j: nat) {
    forall k | 0 <= k < |rounds| && i <= k < j :: Undisturbed(rounds[k].env)
  }

  lemma {:induction false} RunSpends(states: seq<Status>, rounds: seq<Round>, other: State, i: nat, j: nat)
    requires Run(states, rounds) && states[0] == FRESH && i <= j < |states|
    requires UndisturbedBetween(rounds, i, j) && FreeOfDetachError(states[i])
    requires other !in {Deprovisioning, PoweringOffBeforeDelete}
    ensures FreeOfDetachError(states[j])
    ensures FailuresIn(states, rounds, Deprovisioning, i, j) + DeprovisioningBudget(states[j])
            <= DeprovisioningBudget(states[i]) + RefusalsIn(states, rounds, i, j)
    ensures FailuresIn(states, rounds, PoweringOffBeforeDelete, i, j) + PoweringOffBudget(states[j])
            <= PoweringOffBudget(states[i])
    ensures FailuresIn(states, rounds, other, i, j) == 0
    decreases j
  {
    hide Undisturbed, DeprovisioningBudget, PoweringOffBudget, WellFormed, Reconcile, FreeOfDetachError, FailuresSaved,
         RefusalsSaved;
    if i < j {
      RunSpends(states, rounds, other, i, j - 1);
      RunKeepsInvariant(states, rounds, j - 1);
      RoundSpends(states[j - 1], rounds[j - 1]);
    }
  }

  /** In every run of a fresh host, deletion is held up by at most four failures to deprovision, and one more for each
      refusal of capacity there, and by four to power off, whatever mix of registration, adoption, deprovisioning and
      power-off failures occurs, and by no other. */
  lemma DeletionFailuresAreBounded(states: seq<Status>, rounds: seq<Round>, other: State, i: nat, j: nat)
    requires Run(states, rounds) && states[0] == FRESH && i <= j < |states|
    requires UndisturbedBetween(rounds, i, j) && FreeOfDetachError(states[i])
    requires other !in {Deprovisioning, PoweringOffBeforeDelete}
    ensures FailuresIn(states, rounds, Deprovisioning, i, j) <= 4 + RefusalsIn(states, rounds, i, j)
    ensures FailuresIn(states, rounds, PoweringOffBeforeDelete, i, j) <= 4
    ensures FailuresIn(states, rounds, other, i, j) == 0
  {
    hide Run, FailuresIn, RefusalsIn;
    RunSpends(states, rounds, other, i, j);
  }
}
