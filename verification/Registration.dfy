/** Registration and the credentials commit protocol. */
module Registration {
  import opened HostTypes
  import opened ActionResults
  import opened Actions
  import opened StateMachine
  import opened Effects

  /** Only the credentials and the node ID differ. */
  predicate OnlyCredentials(a: Status, b: Status) {
    b == a.(tried := b.tried, id := b.id, good := b.good)
  }

  /** The good credentials change only when registration succeeds, and then they match the secret. A success that
      reports nothing to save has changed nothing but the credentials and the node ID. */
  predicate Commits(h: Hsm, r: Step, env: Inputs) {
    && (if r.result.NoAction? || r.result.ActionComplete? then Match(r.h.status.good, env.secret)
        else r.h.status.good == h.status.good)
    && (r.result.NoAction? ==>
          && OnlyCredentials(h.status, r.h.status)
          && !(h.status.health.errorType == RegistrationError)
          && (Match(h.status.good, env.secret) ==> r.h.status.good == h.status.good))
  }

  lemma CommitCommits(h: Hsm, env: Inputs)
    ensures Commits(h, MatchProfileAndCommit(h, env), env)
    ensures MatchProfileAndCommit(h, env).result == NoAction ==> h.status.settings.rootDeviceHints.Some?
  {
  }

  lemma RegisterNodeCommits(h: Hsm, env: Inputs, wantsImage: bool, credsChanged: bool)
    ensures Commits(h, RegisterNode(h, env, wantsImage, credsChanged), env)
  {
    hide MatchProfileAndCommit;
    if env.answers.register.register.Registered? {
      CommitCommits(h.(status := RecordID(h.status, env.answers.register.register.id)), env);
    }
  }

  lemma FindImageCommits(h: Hsm, env: Inputs, credsChanged: bool)
    ensures Commits(h, FindImage(h, env, credsChanged), env)
  {
    hide RegisterNode;
    var a := env.answers.register;
    RegisterNodeCommits(Log(h, RegisterCalled), env, a.wantsImage && UsesImage(env.spec, h.status), credsChanged);
  }

  lemma RegisterCommits(h: Hsm, env: Inputs)
    ensures Commits(h, RegisterHost(h, env), env)
  {
    hide FindImage;
    FindImageCommits(h, env, false);
    FindImageCommits(NoteTried(h, env), env, true);
  }

  /** Metrics other than the register metric are untouched, and that one too while the host is registering. */
  predicate KeepsMetrics(a: Status, b: Status) {
    && b.history == a.history.(register := b.history.register)
    && (a.state == Registering ==> b.history.register == a.history.register)
  }

  /** The start of a pass: the working copy is the server's, and nothing moves yet. */
  predicate AtStart(h: Hsm) {
    h.status == h.server && h.next == h.status.state
  }

  /** What ensureRegistered leaves: the host where it was, its failure accounted for, and a register metric that was
      closed if a callback is to observe it. */
  predicate Enrolls(h: Hsm, r: Step, env: Inputs) {
    && r.h.server == h.server && r.h.next == h.next && r.h.finalizer == h.finalizer
    && r.h.status.state == h.status.state && r.h.status.deployed == h.status.deployed
    && r.h.status.bootMode == h.status.bootMode
    && KeepsMetrics(h.status, r.h.status)
    && ReportsKeepingCount(h, r)
    && (r.result.NoAction? || Ongoing(r.result))
    && (r.result.ActionFailed? ==> r.result.errorType == RegistrationError)
    && (h.status.state in {NoState, Unmanaged} ==> r == Step(h, NoAction))
  }

  /** The guard of the handlers. */
  predicate Proceeds(h: Hsm, r: Step, env: Inputs) {
    && Aligned(r.h)
    && (r.h.trace == h.trace || r.h.trace == h.trace + [RegisterCalled])
    && (r.h.status.good != h.status.good ==> h.status.state == Registering)
    && (RegistersIn(h, env) && h.status.state != Registering ==> !RetriesRegistration(h.status, env.secret))
  }

  /** The start of a new registration touches the register metric only. */
  lemma RetryTouchesMetric(h: Hsm, env: Inputs)
    requires AtStart(h)
    ensures var h1 := RetryRegistration(h, env);
            h1 == h.(status := h.status.(history := h1.status.history)) && KeepsMetrics(h.status, h1.status)
  {
  }

  lemma EndTouchesMetric(h: Hsm, now: Time)
    ensures var r := EndMetric(h, Registering, now);
            && r == h.(status := h.status.(history := r.status.history), trace := r.trace)
            && r.status.history == h.status.history.(register := r.status.history.register)
  {
  }

  lemma EnsureRegisteredEnrolls(h: Hsm, env: Inputs)
    requires AtStart(h) && env.clock.registerBegin != 0
    ensures Enrolls(h, EnsureRegistered(h, env), env)
  {
    hide RegisterHost, Match, RetryRegistration, EndMetric;
    var h1 := RetryRegistration(h, env);
    RetryTouchesMetric(h, env);
    RegisterEffect(h1, env);
    RegisterCommits(h1, env);
    EndTouchesMetric(RegisterHost(h1, env).h, env.clock.registerEnd);
  }

  lemma EnsureRegisteredCommits(h: Hsm, env: Inputs)
    requires AtStart(h) && env.clock.registerBegin != 0
    ensures EnsureRegistered(h, env).h.status.good != h.status.good ==>
              var r := EnsureRegistered(h, env);
              && Match(r.h.status.good, env.secret)
              && (r.result.ActionUpdate? || (r.result.NoAction? && h.status.state == Registering))
  {
    hide RegisterHost, Match;
    RegisterEffect(RetryRegistration(h, env), env);
    RegisterCommits(RetryRegistration(h, env), env);
  }

  /** In any state but Registering, a handler runs after registration only if the good credentials read at the start
      of the round match the secret and no registration error is pending: otherwise the register metric is open, so
      closing it ends the round. */
  lemma HandlersNeedCommittedCredentials(h: Hsm, env: Inputs)
    requires AtStart(h) && env.clock.registerBegin != 0
    requires EnsureRegistered(h, env).result == NoAction
    ensures Proceeds(h, EnsureRegistered(h, env), env)
  {
    hide RegisterHost, Match;
    var h1 := h.(status := BeginMetric(h.status, Registering, env.clock.registerBegin));
    RegisterEffect(h, env);
    RegisterCommits(h, env);
    RegisterEffect(h1, env);
    RegisterCommits(h1, env);
  }
}
