/** With a truthful BMC, the power of a host that is watched over reaches what spec and annotations ask for. */
module PowerControl {
  import opened HostTypes
  import opened Settings
  import opened Actions
  import opened StateMachine
  import opened Effects
  import opened Traces
  import opened Enrolment
  import DataImages

  /** The status of the host, the power of its node, the power that the node is on its way to, and whether the host has
      the reboot annotation that is taken off once it is served. */
  datatype World = World(status: Status, on: bool, target: Option<bool>, annotated: bool)

  /** What stays the same: the wishes of the spec, whether reboot annotations of other clients are there, and whether
      the one that is taken off counts in the state of the host. */
  datatype Plan = Plan(online: bool, disablePowerOff: bool, others: bool, counts: bool)

  // ----- a round -----

  /** The handler of the host's state watches over it and leaves it there. */
  predicate Kept(s: Status, env: Inputs) {
    match s.state
    case Provisioned => !Cancelled(env.spec, s.deployed) && env.answers.adopt.Complete()
    case ExternallyProvisioned => env.spec.externallyProvisioned && env.answers.adopt.Complete()
    case Available => KeptAvailable(s, env)
    case Ready => KeptAvailable(s, env)
    case _ => false
  }

  predicate KeptAvailable(s: Status, env: Inputs) {
    && !env.spec.externallyProvisioned && env.meta.inspect != InspectRefresh
    && WantedHints(SourceFor(env, s)).Some? && Fixpoint(SourceFor(env, s), s.settings)
    && env.answers.hfs == Pending(false) && env.answers.hfc == Pending(false)
    && !NeedsProvisioning(env.spec, s.deployed)
  }

  /** No policy asks for anything to be serviced. */
  predicate NothingToService(s: Status, env: Inputs) {
    && env.answers.policy.Policy?
    && (env.answers.policy.settingsOnReboot ==>
          env.answers.hfs == Pending(false) && s.settings.firmware == env.spec.firmware)
    && (env.answers.policy.updatesOnReboot ==> env.answers.hfc == Pending(false))
  }

  /** The inputs follow the plan, and whatever does not concern power is in order. */
  predicate Planned(plan: Plan, w: World, env: Inputs) {
    && LeftAlone(env) && InOrder(w.status, env) && Kept(w.status, env)
    && env.spec.online == plan.online && env.spec.disablePowerOff == plan.disablePowerOff
    && env.meta.suffixlessReboot == w.annotated && (IsProvisioned(w.status.state) ==> plan.counts)
    && (if IsProvisioned(w.status.state) then env.meta.anyReboot else env.meta.forcedReboot)
       == (plan.others || (w.annotated && plan.counts))
    && NothingToService(w.status, env) && GateVerdict(env) == DataImages.Pass && env.answers.hostUpdated
  }

  /** The BMC tells the truth and takes every request. */
  predicate Truthful(w: World, env: Inputs) {
    && env.answers.power == Power(w.on)
    && env.answers.powerChange.Result? && env.answers.powerChange.dirty && env.answers.powerChange.message == NoMessage
  }

  predicate Watched(plan: Plan, w: World, r: Round) {
    && WellFormed(r, w.status) && !r.interrupted && r.credentialsError.None? && r.saveOk
    && Planned(plan, w, r.env) && Truthful(w, r.env)
  }

  /** What a round and the BMC do: a node that may not be powered off is rebooted instead, and a request is carried out
      before the next round or not yet. */
  function Next(plan: Plan, w: World, r: Round, completes: bool): World {
    var m := Reconcile(w.status, r);
    var target := if PowerOnCalled in m.trace then Some(true)
                  else if PowerOffCalled in m.trace && !plan.disablePowerOff then Some(false)
                  else w.target;
    var annotated := w.annotated && AnnotationsCleared !in m.trace;
    if completes && target.Some? then World(m.status, target.value, None, annotated)
    else World(m.status, w.on, target, annotated)
  }

  // ----- what the machine does -----

  /** The power that spec and annotations ask for. */
  predicate Asked(plan: Plan, annotated: bool) {
    plan.online && !plan.others && !(annotated && plan.counts)
  }

  datatype Move = Observe | ClearAnnotations | Switch | Wait

  function MoveOf(plan: Plan, w: World): Move {
    if w.status.poweredOn != w.on then Observe
    else if !w.on && w.annotated then ClearAnnotations
    else if w.on != Asked(plan, w.annotated) then Switch
    else Wait
  }

  /** What a round is to do. */
  predicate Does(plan: Plan, w: World, move: Move, status: Status, trace: seq<Event>) {
    && status == w.status.(poweredOn := if move == Observe then w.on else w.status.poweredOn)
    && (PowerOnCalled in trace <==> move == Switch && !w.on)
    && (PowerOffCalled in trace <==> move == Switch && w.on)
    && (AnnotationsCleared in trace <==>
          move == ClearAnnotations || (move == Switch && plan.disablePowerOff && w.annotated))
  }

  /** No power call and no cleared annotation yet. */
  predicate Untouched(t: seq<Event>) {
    PowerOnCalled !in t && PowerOffCalled !in t && AnnotationsCleared !in t
  }

  lemma ManagePowerMoves(plan: Plan, w: World, h: Hsm, env: Inputs)
    requires Planned(plan, w, env) && Truthful(w, env) && Untouched(h.trace)
    requires h.status == h.server == w.status
    ensures var r := ManagePower(h, env);
            && Does(plan, w, MoveOf(plan, w), r.h.status, r.h.trace) && r.h.next == h.next
            && (r.result.ActionUpdate? || r.result.ActionContinue?)
            && (MoveOf(plan, w) == Observe ==> r.result.ActionUpdate?)
  {
    hide GateVerdict, Kept, WantedHints;
  }

  lemma HandlerWatches(h: Hsm, env: Inputs)
    requires Kept(h.status, env) && Aligned(h)
    ensures Handle(h, env) == ManagePower(Log(h, HandlerRun(h.status.state)), env)
  {
    hide ManagePower, Cancelled, Fixpoint, WantedHints, NeedsProvisioning;
    var h1 := Log(h, HandlerRun(h.status.state));
    ManagePowerEffect(h1, env);
  }

  lemma MachineMoves(plan: Plan, w: World, r: Round)
    requires Watched(plan, w, r)
    ensures var m := ReconcileState(w.status, r.finalizer, r.env);
            && Does(plan, w, MoveOf(plan, w), m.h.status, m.h.trace)
            && (m.result.ActionUpdate? || m.result.ActionContinue?)
            && (MoveOf(plan, w) == Observe ==> m.result.ActionUpdate?)
  {
    hide EnsureRegistered, Handle, InOrder, Kept, Does, MoveOf, WantedHints, GateVerdict, NothingToService;
    var h := Start(w.status, r.finalizer);
    assert w.status.health == Health(OK, NoError, NoMessage, 0) by { Healthy(w.status, r.env); }
    assert w.status.state in {Provisioned, ExternallyProvisioned, Available, Ready} by { KeptStates(w.status, r.env); }
    NothingToRegister(h, r.env);
    RegistrationUntouched(h, r.env);
    var g := EnsureRegistered(h, r.env).h;
    HandlerWatches(g, r.env);
    ManagePowerMoves(plan, w, Log(g, HandlerRun(g.status.state)), r.env);
  }

  lemma Healthy(s: Status, env: Inputs)
    requires InOrder(s, env)
    ensures s.health == Health(OK, NoError, NoMessage, 0)
  {
  }

  lemma KeptStates(s: Status, env: Inputs)
    requires Kept(s, env)
    ensures s.state in {Provisioned, ExternallyProvisioned, Available, Ready}
  {
  }

  lemma RegistrationUntouched(h: Hsm, env: Inputs)
    requires InOrder(h.status, env) && h.trace == []
    ensures Untouched(EnsureRegistered(h, env).h.trace)
  {
    hide RegisterHost, Match;
    EnsureRegisteredTrace(h, env);
  }

  /** What a round does, by the move that it has to make. */
  lemma RoundMoves(plan: Plan, w: World, r: Round)
    requires Watched(plan, w, r)
    ensures var m := Reconcile(w.status, r);
            Does(plan, w, MoveOf(plan, w), m.status, m.trace)
  {
    hide ReconcileState, InOrder, Kept, NothingToService, GateVerdict;
    MachineMoves(plan, w, r);
  }

  // ----- convergence -----

  /** Status and node agree on the power that is asked for, nothing is under way, and a reboot was served. */
  predicate Settled(plan: Plan, w: World) {
    w.status.poweredOn == w.on == Asked(plan, w.annotated) && w.target.None? && (w.annotated ==> w.on)
  }

  /** The node is never to be turned off for good, or it may be, or it is off already and stays so. */
  predicate CanSettle(plan: Plan, w: World) {
    !plan.disablePowerOff || (plan.online && !plan.others) || (!w.on && w.target != Some(true))
  }

  /** The node is on its way to the power that is asked for. */
  predicate OnItsWay(plan: Plan, w: World) {
    && MoveOf(plan, w) == Switch && w.target == Some(!w.on) && !(plan.disablePowerOff && w.on)
  }

  /** The rounds in which a request is carried out, at most, until the power is settled. */
  function Distance(plan: Plan, w: World): nat {
    var (known, asked) := (w.status.poweredOn == w.on, Asked(plan, w.annotated));
    var restart: nat := if plan.online && !plan.others then 2 else 0;
    if w.target.Some? && !OnItsWay(plan, w) then 7
    else if w.on == asked && (w.annotated ==> w.on) then if known then 0 else 1
    else if !w.annotated then if known then 2 else 3
    else if w.on then restart + if known then 3 else 4
    else restart + if known then 1 else 2
  }

  /** A round brings the power closer if the BMC carries out what is asked of it, and otherwise takes it no farther; and
      once it is settled nothing changes any more. */
  lemma RoundCloser(plan: Plan, w: World, r: Round, completes: bool)
    requires Watched(plan, w, r) && CanSettle(plan, w)
    ensures var next := Next(plan, w, r, completes);
            && CanSettle(plan, next)
            && (Settled(plan, w) <==> Distance(plan, w) == 0)
            && (Settled(plan, w) ==> next == w)
            && Distance(plan, next) <= Distance(plan, w)
            && (completes && !Settled(plan, w) ==> Distance(plan, next) < Distance(plan, w))
  {
    hide Reconcile, Watched;
    RoundMoves(plan, w, r);
  }

  /** A run of rounds, each of which may see the BMC carry out what was asked of it. */
  ghost predicate Run(plan: Plan, worlds: seq<World>, rounds: seq<Round>, done: seq<bool>) {
    && |worlds| == |rounds| + 1 == |done| + 1
    && forall i | 0 <= i < |rounds| ::
         Watched(plan, worlds[i], rounds[i]) && worlds[i + 1] == Next(plan, worlds[i], rounds[i], done[i])
  }

  function Completed(done: seq<bool>): nat {
    if done == [] then 0 else Completed(done[..|done| - 1]) + if done[|done| - 1] then 1 else 0
  }

  lemma {:induction false} RunCloser(plan: Plan, worlds: seq<World>, rounds: seq<Round>, done: seq<bool>, n: nat)
    requires Run(plan, worlds, rounds, done) && CanSettle(plan, worlds[0]) && n < |worlds|
    ensures CanSettle(plan, worlds[n])
    ensures Settled(plan, worlds[n]) || Distance(plan, worlds[n]) + Completed(done[..n]) <= 7
  {
    hide Watched, Next, CanSettle, Settled;
    if n > 0 {
      RunCloser(plan, worlds, rounds, done, n - 1);
      RoundCloser(plan, worlds[n - 1], rounds[n - 1], done[n - 1]);
      assert done[..n][..n - 1] == done[..n - 1];
    }
  }

  /** A node that may not be turned off although this is asked for all the time is rebooted again and again: from the
      second round on, in every one. */
  lemma {:induction false} RebootedForever(plan: Plan, worlds: seq<World>, rounds: seq<Round>, done: seq<bool>, n: nat)
    requires Run(plan, worlds, rounds, done) && n < |worlds|
    requires !CanSettle(plan, worlds[0]) && worlds[0].on && worlds[0].target.None?
    ensures worlds[n].on && worlds[n].target.None? && (n > 0 ==> worlds[n].status.poweredOn)
    ensures 0 < n < |rounds| ==> PowerOffCalled in Reconcile(worlds[n].status, rounds[n]).trace
  {
    hide Watched, Reconcile;
    if n > 0 {
      RebootedForever(plan, worlds, rounds, done, n - 1);
      RoundMoves(plan, worlds[n - 1], rounds[n - 1]);
    }
    if n < |rounds| {
      RoundMoves(plan, worlds[n], rounds[n]);
    }
  }

  /** The power converges: with nothing under way at first, once the BMC has carried out what is asked of it in seven
      rounds, status and node have the power that spec and annotations ask for, with every reboot served, if and only
      if the host may be powered off, or need not be off for good, or is off to begin with. */
  lemma PowerConverges(plan: Plan, worlds: seq<World>, rounds: seq<Round>, done: seq<bool>, n: nat)
    requires Run(plan, worlds, rounds, done) && n < |worlds| && Completed(done[..n]) >= 7
    requires worlds[0].target.None?
    ensures Settled(plan, worlds[n]) <==>
            !plan.disablePowerOff || (plan.online && !plan.others) || !worlds[0].on
  {
    hide Watched, Next;
    if CanSettle(plan, worlds[0]) {
      RunCloser(plan, worlds, rounds, done, n);
    } else {
      RebootedForever(plan, worlds, rounds, done, n);
    }
  }

  /** Settled power stays as it is. */
  lemma {:induction false} SettledStays(plan: Plan, worlds: seq<World>, rounds: seq<Round>, done: seq<bool>, n: nat,
                                        m: nat)
    requires Run(plan, worlds, rounds, done) && n <= m < |worlds| && CanSettle(plan, worlds[n])
    requires Settled(plan, worlds[n])
    ensures worlds[m] == worlds[n]
    decreases m
  {
    hide Watched, Next, CanSettle, Settled;
    if n < m {
      SettledStays(plan, worlds, rounds, done, n, m - 1);
      RoundCloser(plan, worlds[m - 1], rounds[m - 1], done[m - 1]);
    }
  }
}
