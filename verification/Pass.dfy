/** One pass of the machine, from the guards to the handler and through the deferred update. */
module Pass {
  import opened HostTypes
  import opened ActionResults
  import opened Actions
  import opened StateMachine
  import opened Effects
  import opened Machine
  import opened Registration

  /** What every pass does before the deferred update: it moves along the life cycle, accounts for its failures and
      leaves alone the metrics that belong to states. */
  predicate Attempted(h: Hsm, r: Step, env: Inputs) {
    Moves(h, r, env) && Accounts(h, r) && Concludes(r, h.status.state) && KeepsMetrics(h.status, r.h.status)
  }

  /** The clock runs, and credentials were read only if the state needs them. */
  predicate Sane(h: Hsm, env: Inputs) {
    && AtStart(h) && HealthInv(h.status)
    && env.clock.registerBegin != 0
    && (env.haveCreds ==> NeedsCredentials(h.status.state))
  }

  /** A deletion request leaves only the handlers of the deletion states: any other host is sent there, or is detached
      and kept out of the handlers by the detachment check. */
  lemma DeletionIsolates(h: Hsm, env: Inputs)
    requires AtStart(h) && env.meta.deleting
    requires InitiatedState(h.next, h.status, env.meta).None? && CheckDetachedHost(h, env).result == NoAction
    ensures h.status.state in {Deprovisioning, PoweringOffBeforeDelete, Deleting}
  {
    hide DetachHost;
    DetachEffect(h, env);
  }

  lemma DetachedAttempted(h: Hsm, env: Inputs)
    requires AtStart(h)
    ensures var r := CheckDetachedHost(h, env);
            if r.result == NoAction then r.h == h && h.status.health.errorType != DetachError
              && h.status.health.op != Detached
            else Attempted(h, r, env) && r.h.next == h.next && r.h.trace == h.trace
  {
    hide DetachHost;
    DetachEffect(h, env);
  }

  lemma AttachedAttempted(h: Hsm, env: Inputs)
    requires Sane(h, env)
    requires h.status.health.errorType != DetachError
    requires env.meta.deleting ==> h.status.state in {Deprovisioning, PoweringOffBeforeDelete, Deleting}
    ensures Attempted(h, AttemptAttached(h, env), env)
  {
    hide EnsureRegistered, Handle, Follows, Deployed;
    EnsureRegisteredEnrolls(h, env);
    var r := EnsureRegistered(h, env);
    if r.result == NoAction {
      HandlersNeedCommittedCredentials(h, env);
      HandlerHandled(r.h, env);
    }
  }

  lemma UndelayedAttempted(h: Hsm, env: Inputs)
    requires Sane(h, env)
    ensures Attempted(h, AttemptUndelayed(h, env), env)
  {
    hide CheckDetachedHost, AttemptAttached, DelaysDeletion, GivesUpRegistering, Deployed;
    DetachedAttempted(h, env);
    if InitiatedState(h.next, h.status, env.meta).None? && CheckDetachedHost(h, env).result == NoAction {
      if env.meta.deleting {
        DeletionIsolates(h, env);
      }
      AttachedAttempted(h, env);
    }
  }

  lemma AttemptAttempted(h: Hsm, env: Inputs)
    requires Sane(h, env)
    ensures var r := Attempt(h, env);
            && Moves(h, r, env) && Accounts(h, r) && KeepsMetrics(h.status, r.h.status)
            && (r.result.ActionDelayed? || Concludes(r, h.status.state))
  {
    hide AttemptUndelayed, Deployed, Follows;
    var d := CheckDelayedHost(h, env);
    if d.result == NoAction {
      assert Sane(d.h, env);
      UndelayedAttempted(d.h, env);
    }
  }

  // ----- the deferred update -----

  /** The metrics of a host that changes state. */
  function Turn(h: History, from: State, to: State, now: Time): History {
    var ended := if HasMetric(from) && MetricFor(h, from).Open()
                 then SetMetric(h, from, MetricFor(h, from).(end := now)) else h;
    if HasMetric(to) && !MetricFor(ended, to).Open() then SetMetric(ended, to, Metric(now, 0)) else ended
  }

  /** Ending one metric and starting another turns the history and leaves the rest of the host alone. */
  lemma MetricsTurn(h: Hsm, from: State, to: State, now: Time)
    ensures var h1 := EndMetric(h, from, now);
            && h1 == h.(status := h1.status, trace := h1.trace)
            && BeginMetric(h1.status, to, now) == h.status.(history := Turn(h.status.history, from, to, now))
  {
  }

  /** The deferred update either vetoes the transition for lack of capacity, or turns the metrics and enters the
      chosen state; what the handler recorded as deployed is never vetoed. */
  lemma DeferredUpdate(h: Hsm, a: Step, env: Inputs)
    requires AtStart(h) && Moves(h, a, env)
    ensures var m := Deferred(a, h.status.state, env);
            && m.h.failures == a.h.failures && m.h.finalizer == a.h.finalizer && m.h.status.good == a.h.status.good
            && m.h.status.deployed == a.h.status.deployed && m.h.server == a.h.server
            && m.h.status.settings == a.h.status.settings
            && (if a.h.next == h.status.state then m == a
                else if m.h.status.state == h.status.state then
                  && NeedsCapacity(a.h.next) && m.h.status.history == a.h.status.history
                  && (m.result.ActionError? || (m.result.ActionDelayed? && m.h.status.health.op == Delayed))
                  && m.h.status.health == a.h.status.health.(op := m.h.status.health.op)
                  && (m.result.ActionError? ==> m.h.status.health == a.h.status.health)
                else
                  && m.h.status.state == a.h.next && m.result == ActionComplete
                  && m.h.status.history == Turn(a.h.status.history, h.status.state, a.h.next, env.clock.transition)
                  && m.h.status.health == a.h.status.health)
  {
    hide Follows, Redeploys, EndMetric, BeginMetric, Turn;
    if a.h.next != h.status.state {
      var c := if NeedsCapacity(a.h.next) then EnsureCapacity(a.h, env.answers.capacityAfter) else Step(a.h, NoAction);
      MetricsTurn(c.h, h.status.state, a.h.next, env.clock.transition);
    }
  }
}
