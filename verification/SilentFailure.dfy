/** What the bound on preparations does not cover: a cleaning failure for which Ironic records no error text. */
module SilentFailure {
  import opened HostTypes
  import opened ActionResults
  import opened Settings
  import opened IronicPrepare
  import opened Actions
  import opened StateMachine
  import opened Enrolment
  import opened Preparation

  /** Nobody asks for the host to be deleted, detached, inspected or adopted. */
  predicate LeftToPrepare(env: Inputs) {
    LeftAlone(env) && env.meta.inspect == NoInspect && !env.spec.externallyProvisioned
  }

  /** Cleaning has failed and Ironic does not say why; the host's settings are not those of the spec. */
  predicate Silent(s: Status, env: Inputs) {
    && env.answers.node.driverKnown && env.answers.node.nodeError.None?
    && env.answers.node.node.state == NodeCleanFail && env.answers.node.node.lastError == NoMessage
    && env.answers.hfs == Pending(false) && env.answers.hfc == Pending(false)
    && WantedHints(SourceFor(env, s)).Some? && !Fixpoint(SourceFor(env, s), s.settings)
  }

  lemma HandledInLoop(h: Hsm, env: Inputs)
    requires h.next == h.status.state && LeftToPrepare(env) && Silent(h.status, env)
             && h.status.health.errorType == NoError
    requires h.status.state in {Preparing, Available}
    ensures var next := if h.status.state == Preparing then Available else Preparing;
            var r := Handle(h, env);
            && r.result == ActionComplete
            && r.h == h.(next := next, trace := r.h.trace,
                         status := SetErrorCount(h.status, r.h.status.health.errorCount))
            && r.h.status.health.errorCount == (if h.status.state == Preparing then 0 else h.status.health.errorCount)
  {
    hide Save, WantedHints;
    if h.status.state == Preparing {
      var source := SourceFor(env, h.status);
      var data := PrepareData(Save(source, h.status.settings).raid, h.status.settings.raid);
      CompletionMeansStarted(env.answers.node, data, true, false);
    }
  }

  lemma MachineBounces(s: Status, finalizer: bool, env: Inputs)
    requires LeftToPrepare(env) && InOrder(s, env) && Silent(s, env) && s.state in {Preparing, Available}
    ensures var m := ReconcileState(s, finalizer, env);
            && m.result == ActionComplete
            && m.h.status == s.(state := if s.state == Preparing then Available else Preparing)
  {
    hide EnsureRegistered, Handle, InOrder, Silent;
    var h := Start(s, finalizer);
    assert s.health == Health(OK, NoError, NoMessage, 0) by { Healthy(s, env); }
    NothingToRegister(h, env);
    var g := EnsureRegistered(h, env).h;
    HandledInLoop(g, env);
  }

  lemma Healthy(s: Status, env: Inputs)
    requires InOrder(s, env)
    ensures s.health == Health(OK, NoError, NoMessage, 0)
  {
  }

  /** Such a host goes from Preparing to Available and back, with every round saved, and ends where it started: its
      settings are never applied and nothing is ever reported. */
  lemma SilentFailureBouncesForever(s: Status, r: Round)
    requires !r.interrupted && r.credentialsError.None? && r.saveOk && s.state == Preparing
    requires LeftToPrepare(r.env) && InOrder(s, r.env) && Silent(s, r.env)
    ensures Reconcile(s, r).status == s.(state := Available)
    ensures Reconcile(s.(state := Available), r).status == s
  {
    hide ReconcileState;
    MachineBounces(s, r.finalizer, r.env);
    MachineBounces(s.(state := Available), r.finalizer, r.env);
  }

  // ----- a run of a new host -----

  /** The spec asks for firmware settings, and cleaning fails without a word. */
  const SILENT := EXAMPLE.(spec := EXAMPLE.spec.(firmware := Some(Firmware(1))),
                           answers := GOOD_ANSWERS.(node := GOOD_ANSWERS.node.(node := FAILED_NODE)))

  const FAILED_NODE := Node(NodeCleanFail, false, "", NoMessage)

  const SOURCE := Source(SILENT.spec, Some(Hints(0)))

  lemma SilentEnlists()
    ensures Enlists(SILENT) && LeftToPrepare(SILENT)
  {
  }

  lemma SilentIsPrepared()
    ensures var s := Enrolled(SILENT);
            && s.state == Preparing && s.hardwareProfile == "unknown" && SourceFor(SILENT, s) == SOURCE
            && Silent(s, SILENT) && !Fixpoint(SOURCE, s.settings)
  {
  }

  lemma ReadyIsSilent(s: Status, env: Inputs)
    requires LeftToPrepare(env) && InOrder(s, env) && Silent(s, env)
    ensures var e := env.(haveCreds := true);
            && LeftToPrepare(e) && InOrder(s, e) && Silent(s, e)
            && InOrder(s.(state := Available), e) && Silent(s.(state := Available), e)
  {
  }

  lemma {:induction false} SentBackKeeps(states: seq<Status>, more: seq<Status>, i: nat, j: nat)
    requires i <= j < |states|
    ensures TimesSentBack(SOURCE, states + more, i, j) == TimesSentBack(SOURCE, states, i, j)
  {
    if i < j {
      SentBackKeeps(states, more, i, j - 1);
    }
  }

  /** A run of a new host that was sent back for its settings n times since it was enrolled, and is being prepared. */
  ghost predicate Bounced(states: seq<Status>, rounds: seq<Round>, n: nat) {
    && Run(states, rounds) && states[0] == FRESH && 4 <= |rounds|
    && states[|states| - 1] == Enrolled(SILENT)
    && TimesSentBack(SOURCE, states, 4, |rounds|) == n
  }

  lemma BouncesOnce(states: seq<Status>, rounds: seq<Round>, n: nat) returns (more: seq<Status>, moreRounds: seq<Round>)
    requires Bounced(states, rounds, n)
    ensures Bounced(more, moreRounds, n + 1)
  {
    hide Reconcile, Enrolled, Silent, InOrder, Enlists;
    var s := Enrolled(SILENT);
    var available := s.(state := Available);
    SilentEnlists();
    SilentIsPrepared();
    EnrolledIsRegistered(SILENT);
    ReadyIsSilent(s, SILENT);
    var r := Plain(SILENT, s);
    SilentFailureBouncesForever(s, r);
    assert WellFormed(r, s) && WellFormed(r, available);
    RunGoesOn(states, rounds, r);
    RunGoesOn(states + [available], rounds + [r], r);
    more, moreRounds := states + [available] + [s], rounds + [r] + [r];
    SentBackKeeps(states, [available], 4, |rounds|);
    SentBackKeeps(states + [available], [s], 4, |rounds| + 1);
  }

  /** Without the exception, no number bounds how often a new host is sent back from Available for its settings. */
  lemma {:induction false} SilentFailuresAreUnbounded(n: nat) returns (states: seq<Status>, rounds: seq<Round>)
    ensures Bounced(states, rounds, n)
  {
    hide Reconcile, Enlists;
    if n == 0 {
      SilentEnlists();
      NewHostIsEnrolled(SILENT);
      states, rounds := EnrolmentStates(SILENT), EnrolmentRounds(SILENT);
    } else {
      states, rounds := SilentFailuresAreUnbounded(n - 1);
      states, rounds := BouncesOnce(states, rounds, n - 1);
    }
  }
}
