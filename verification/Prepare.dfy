/** Manual cleaning of an Ironic node (Prepare and its helpers in pkg/provisioner/ironic/ironic.go). */
module IronicPrepare {
  import opened HostTypes
  import opened Raid

  /** What a provisioner call answers: a Go error, or a provisioner.Result. */
  datatype Answer = Error(needsRegistration: bool) | Result(dirty: bool, delay: nat, message: Message) {
    predicate Complete() { Result? && !dirty && message == NoMessage }
  }

  const REQUEUE_DELAY: nat := 10

  function OperationComplete(): Answer { Result(false, 0, NoMessage) }
  function OperationContinuing(delay: nat): Answer { Result(true, delay, NoMessage) }
  function OperationFailed(message: Message): Answer { Result(false, 0, message) }

  datatype NodeState = NodeAvailable | NodeManageable | NodeCleanFail | NodeCleaning | NodeCleanWait | NodeOther

  /** How Ironic answers a write: done, 409 Conflict, or another error. */
  datatype ApiAnswer = Accepted | Conflict | Refused

  /** The cleaning steps for BIOS settings and firmware updates, which come after the RAID steps. */
  datatype OtherSteps = OtherStepsError | OtherSteps(count: nat)

  /** setTargetRAIDCfg after its interface check: the volumes cannot be built, or are set, or the node is busy. */
  datatype TargetAnswer = TargetSet | TargetInvalid | TargetBusy | TargetError

  datatype Node = Node(state: NodeState, maintenance: bool, fault: string, lastError: Message)

  /** Everything Prepare learns from outside: the BMC driver, the node and Ironic's answers. */
  datatype NodeEnv = NodeEnv(
    driverKnown: bool,
    nodeError: Option<bool>,
    node: Node,
    raidInterface: string,
    target: TargetAnswer,
    others: OtherSteps,
    write: ApiAnswer)

  datatype PrepareData = PrepareData(target: Option<RAIDConfig>, actual: Option<RAIDConfig>)

  datatype Request = TargetManage | TargetClean(raidSteps: seq<CleanStep>) | UnsetMaintenance

  /** The answer, the `started` flag and the writes sent to Ironic. */
  datatype Preparation = Preparation(answer: Answer, started: bool, requests: seq<Request>)

  predicate ValidSteps(env: NodeEnv, data: PrepareData) {
    CleanSteps(env.raidInterface, data.target, data.actual).Steps? && env.others.OtherSteps?
  }

  function RAIDSteps(env: NodeEnv, data: PrepareData): seq<CleanStep> {
    var r := CleanSteps(env.raidInterface, data.target, data.actual);
    if r.Steps? then r.steps else []
  }

  predicate NothingToClean(env: NodeEnv, data: PrepareData) {
    ValidSteps(env, data) && RAIDSteps(env, data) == [] && env.others.count == 0
  }

  function StepsMessage(env: NodeEnv, data: PrepareData): Message {
    if CleanSteps(env.raidInterface, data.target, data.actual).StepsError? then InvalidRAID
    else if env.others.OtherStepsError? then InvalidBIOSSettings
    else NoMessage
  }

  function SetMaintenance(env: NodeEnv): Answer {
    match env.write
    case Accepted => OperationContinuing(0)
    case Conflict => OperationContinuing(REQUEUE_DELAY)
    case Refused => Error(false)
  }

  /** tryChangeNodeProvisionState */
  function TryChangeState(env: NodeEnv, request: Request): Preparation {
    if env.node.fault != "" then Preparation(OperationContinuing(REQUEUE_DELAY), false, [])
    else if env.node.maintenance then Preparation(SetMaintenance(env), false, [UnsetMaintenance])
    else
      match env.write
      case Accepted => Preparation(OperationContinuing(REQUEUE_DELAY), true, [request])
      case Conflict => Preparation(OperationContinuing(REQUEUE_DELAY), false, [request])
      case Refused => Preparation(Error(false), false, [request])
  }

  /** startManualCleaning */
  function StartManualCleaning(env: NodeEnv, data: PrepareData): Preparation {
    if CheckInterface(env.raidInterface, data.target, data.actual).None? then
      Preparation(OperationFailed(InvalidRAID), false, [])
    else if env.target.TargetInvalid? then Preparation(OperationFailed(InvalidVolumes), false, [])
    else if env.target.TargetBusy? then Preparation(OperationContinuing(REQUEUE_DELAY), false, [])
    else if env.target.TargetError? then Preparation(Error(false), false, [])
    else if !ValidSteps(env, data) then Preparation(OperationFailed(StepsMessage(env, data)), false, [])
    else if NothingToClean(env, data) then Preparation(OperationComplete(), false, [])
    else TryChangeState(env, TargetClean(RAIDSteps(env, data)))
  }

  function Prepare(env: NodeEnv, data: PrepareData, unprepared: bool, restartOnFailure: bool): Preparation {
    if !env.driverKnown then Preparation(Error(false), false, [])
    else if env.nodeError.Some? then Preparation(Error(env.nodeError.value), false, [])
    else
      match env.node.state
      case NodeAvailable =>
        if !unprepared then Preparation(OperationComplete(), false, [])
        else if !ValidSteps(env, data) then Preparation(OperationFailed(StepsMessage(env, data)), false, [])
        else if NothingToClean(env, data) then Preparation(OperationComplete(), true, [])
        else TryChangeState(env, TargetManage).(started := false)
      case NodeManageable =>
        if !unprepared then Preparation(OperationComplete(), false, [])
        else
          var p := StartManualCleaning(env, data);
          if p.started || !p.answer.Complete() then p else Preparation(OperationComplete(), true, p.requests)
      case NodeCleanFail =>
        if !restartOnFailure then Preparation(OperationFailed(env.node.lastError), false, [])
        else if env.node.maintenance then Preparation(SetMaintenance(env), false, [UnsetMaintenance])
        else TryChangeState(env, TargetManage).(started := false)
      case NodeCleaning => Preparation(OperationContinuing(REQUEUE_DELAY), false, [])
      case NodeCleanWait => Preparation(OperationContinuing(REQUEUE_DELAY), false, [])
      case NodeOther => Preparation(Error(false), false, [])
  }

  // ----- the source's procedure -----

  /** A handle on one node that remembers the writes it sent. */
  class IronicNode {
    const env: NodeEnv
    var requests: seq<Request>

    constructor (env: NodeEnv)
      ensures this.env == env && requests == []
    {
      this.env, requests := env, [];
    }

    method UnsetMaintenanceFlag() returns (answer: Answer)
      modifies this
      ensures answer == SetMaintenance(env) && requests == old(requests) + [UnsetMaintenance]
    {
      requests := requests + [UnsetMaintenance];
      match env.write {
        case Accepted => answer := OperationContinuing(0);
        case Conflict => answer := OperationContinuing(REQUEUE_DELAY);
        case Refused => answer := Error(false);
      }
    }

    method TryChangeNodeProvisionState(request: Request) returns (success: bool, answer: Answer)
      modifies this
      ensures var spec := TryChangeState(env, request);
              success == spec.started && answer == spec.answer && requests == old(requests) + spec.requests
    {
      success := false;
      if env.node.fault != "" {
        answer := OperationContinuing(REQUEUE_DELAY);
        return;
      }
      if env.node.maintenance {
        answer := UnsetMaintenanceFlag();
        return;
      }
      requests := requests + [request];
      if env.write == Accepted {
        success := true;
      } else if env.write == Conflict {
        answer := OperationContinuing(REQUEUE_DELAY);
        return;
      } else {
        answer := Error(false);
        return;
      }
      answer := OperationContinuing(REQUEUE_DELAY);
    }

    method StartCleaning(data: PrepareData) returns (success: bool, answer: Answer)
      modifies this
      ensures var spec := StartManualCleaning(env, data);
              success == spec.started && answer == spec.answer && requests == old(requests) + spec.requests
    {
      success, answer := false, OperationComplete();
      if CheckInterface(env.raidInterface, data.target, data.actual) == None {
        answer := OperationFailed(InvalidRAID);
      } else {
        match env.target {
          case TargetInvalid => answer := OperationFailed(InvalidVolumes);
          case TargetBusy => answer := OperationContinuing(REQUEUE_DELAY);
          case TargetError => answer := Error(false);
          case TargetSet =>
        }
      }
      if answer.Error? || answer.dirty || answer.message != NoMessage {
        return;
      }
      var steps := CleanSteps(env.raidInterface, data.target, data.actual);
      if steps.StepsError? || env.others.OtherStepsError? {
        answer := OperationFailed(StepsMessage(env, data));
        return;
      }
      if |steps.steps| + env.others.count != 0 {
        success, answer := TryChangeNodeProvisionState(TargetClean(steps.steps));
        return;
      }
      answer := OperationComplete();
    }

    method PrepareNode(data: PrepareData, unprepared: bool, restartOnFailure: bool)
      returns (answer: Answer, started: bool)
      modifies this
      ensures var spec := Prepare(env, data, unprepared, restartOnFailure);
              started == spec.started && answer == spec.answer && requests == old(requests) + spec.requests
    {
      started, answer := false, OperationComplete();
      if !env.driverKnown {
        answer := Error(false);
        return;
      }
      if env.nodeError.Some? {
        answer := Error(env.nodeError.value);
        return;
      }
      match env.node.state {
        case NodeAvailable =>
          if unprepared {
            var steps := CleanSteps(env.raidInterface, data.target, data.actual);
            if steps.StepsError? || env.others.OtherStepsError? {
              answer := OperationFailed(StepsMessage(env, data));
              return;
            }
            if |steps.steps| + env.others.count != 0 {
              var _, a := TryChangeNodeProvisionState(TargetManage);
              answer := a;
              return;
            }
            started := true;
          }
        case NodeManageable =>
          if unprepared {
            started, answer := StartCleaning(data);
            if started || answer.Error? || answer.dirty || answer.message != NoMessage {
              return;
            }
            started := true;
          }
        case NodeCleanFail =>
          if !restartOnFailure {
            answer := OperationFailed(env.node.lastError);
            return;
          }
          if env.node.maintenance {
            answer := UnsetMaintenanceFlag();
            return;
          }
          var _, a := TryChangeNodeProvisionState(TargetManage);
          answer := a;
        case NodeCleaning => answer := OperationContinuing(REQUEUE_DELAY);
        case NodeCleanWait => answer := OperationContinuing(REQUEUE_DELAY);
        case NodeOther => answer := Error(false);
      }
    }
  }

  // ----- what Prepare promises -----

  /** A failed cleaning for which Ironic recorded no error text: Prepare's failure then carries an empty
      message, which callers cannot tell from completion. */
  predicate SilentCleanFailure(env: NodeEnv, restartOnFailure: bool) {
    && env.driverKnown && env.nodeError.None?
    && env.node.state == NodeCleanFail && !restartOnFailure && env.node.lastError == NoMessage
  }

  /** With settings to apply, Prepare reports completion without having started exactly for a silent cleaning
      failure. In every other case completion means that the settings are in place. */
  lemma CompletionMeansStarted(env: NodeEnv, data: PrepareData, unprepared: bool, restartOnFailure: bool)
    ensures var p := Prepare(env, data, unprepared, restartOnFailure);
            unprepared && p.answer.Complete() && !p.started <==> unprepared && SilentCleanFailure(env, restartOnFailure)
  {
  }

  /** Completion sends no write to Ironic, and with settings to apply it happens only when there is no step to run
      for them, or for a silent failure. */
  lemma CompletionMeansNothingToDo(env: NodeEnv, data: PrepareData, restartOnFailure: bool)
    requires Prepare(env, data, true, restartOnFailure).answer.Complete()
    ensures Prepare(env, data, true, restartOnFailure).requests == []
    ensures NothingToClean(env, data) || SilentCleanFailure(env, restartOnFailure)
  {
  }

  /** `started` means the settings may be recorded: the cleaning steps were accepted by Ironic, or none is needed. */
  lemma StartedMeansAccepted(env: NodeEnv, data: PrepareData, unprepared: bool, restartOnFailure: bool)
    requires Prepare(env, data, unprepared, restartOnFailure).started
    ensures NothingToClean(env, data)
            || (env.write == Accepted
                && Prepare(env, data, unprepared, restartOnFailure).requests == [TargetClean(RAIDSteps(env, data))])
  {
  }

  /** A node with a fault, or in maintenance, is not asked to change its state, though after a failed cleaning it is
      taken out of maintenance in any case; and of the others at most one thing is asked, which waits for a conflict. */
  lemma RequestsAreSafe(env: NodeEnv, data: PrepareData, unprepared: bool, restartOnFailure: bool)
    ensures var p := Prepare(env, data, unprepared, restartOnFailure);
            && |p.requests| <= 1
            && (env.node.fault != "" || env.node.maintenance ==> p.requests in {[], [UnsetMaintenance]})
            && (p.requests == [UnsetMaintenance] ==> env.node.maintenance)
            && (env.driverKnown && env.nodeError.None? && env.node.state == NodeCleanFail && restartOnFailure ==>
                  env.node.maintenance ==> p.requests == [UnsetMaintenance])
            && (p.requests != [] ==>
                  p.answer == (match env.write
                               case Accepted => OperationContinuing(if env.node.maintenance then 0 else REQUEUE_DELAY)
                               case Conflict => OperationContinuing(REQUEUE_DELAY)
                               case Refused => Error(false)))
  {
    hide CleanSteps;
  }

  /** What is wrong with the node, the volumes, the RAID configuration or the BIOS settings is what Prepare reports. */
  lemma PrepareReports(env: NodeEnv, data: PrepareData, unprepared: bool, restartOnFailure: bool)
    ensures var p := Prepare(env, data, unprepared, restartOnFailure);
            && (!env.driverKnown ==> p.answer == Error(false))
            && (env.driverKnown && env.nodeError.Some? ==> p.answer == Error(env.nodeError.value))
            && (env.driverKnown && env.nodeError.None? ==>
                  && (env.node.state == NodeManageable && unprepared ==>
                        && (CheckInterface(env.raidInterface, data.target, data.actual).None? ==>
                              p.answer == OperationFailed(InvalidRAID))
                        && (CheckInterface(env.raidInterface, data.target, data.actual).Some? ==>
                              match env.target
                              case TargetInvalid => p.answer == OperationFailed(InvalidVolumes)
                              case TargetBusy => p.answer == OperationContinuing(REQUEUE_DELAY)
                              case TargetError => p.answer == Error(false)
                              case TargetSet =>
                                env.others.OtherStepsError? ==> p.answer.message == InvalidBIOSSettings))
                  && (env.node.state == NodeAvailable && unprepared ==>
                        && (CleanSteps(env.raidInterface, data.target, data.actual).StepsError? ==>
                              p.answer == OperationFailed(InvalidRAID))
                        && (env.others.OtherStepsError? ==>
                              || p.answer == OperationFailed(InvalidRAID)
                              || p.answer == OperationFailed(InvalidBIOSSettings))
                        && (CleanSteps(env.raidInterface, data.target, data.actual).Steps? ==>
                              p.answer != OperationFailed(InvalidRAID)))
                  && (env.node.state == NodeCleanFail && !restartOnFailure ==>
                        p.answer == OperationFailed(env.node.lastError))
                  && (env.node.state == NodeOther ==> p.answer == Error(false)))
  {
    ErrorMeansInterface(env.raidInterface, data);
  }

  lemma ErrorMeansInterface(interface: string, data: PrepareData)
    ensures CleanSteps(interface, data.target, data.actual).StepsError? <==>
            CheckInterface(interface, data.target, data.actual).None?
  {
  }

  // ----- preparing converges -----

  /** A node between the calls of Prepare: whether the settings are on record, and the cleanings that were requested. */
  datatype World = World(node: Node, recorded: bool, cleanings: seq<seq<CleanStep>>)

  /** Everything answers well, and the steps can be built. */
  predicate Smooth(env: NodeEnv, data: PrepareData) {
    && env.driverKnown && env.nodeError.None? && env.target.TargetSet? && env.write.Accepted?
    && CheckInterface(env.raidInterface, data.target, data.actual).Some? && ValidSteps(env, data)
  }

  /** Ironic finishes a cleaning that is under way before the next call. */
  function Finish(node: Node): Node {
    if node.state in {NodeCleaning, NodeCleanWait} then node.(state := NodeManageable) else node
  }

  /** The node after the requests were accepted. */
  function Obeys(node: Node, requests: seq<Request>): Node
    decreases |requests|
  {
    if requests == [] then node
    else
      match requests[0]
      case UnsetMaintenance => Obeys(node.(maintenance := false), requests[1..])
      case TargetManage => Obeys(node.(state := NodeManageable), requests[1..])
      case TargetClean(_) => Obeys(node.(state := NodeCleaning), requests[1..])
  }

  function Cleanings(requests: seq<Request>): seq<seq<CleanStep>> {
    if requests == [] then []
    else (if requests[0].TargetClean? then [requests[0].raidSteps] else []) + Cleanings(requests[1..])
  }

  /** The call of Prepare in a round: it is told to apply the settings until they are on record. */
  function Call(w: World, env: NodeEnv, data: PrepareData): Preparation {
    Prepare(env.(node := Finish(w.node)), data, !w.recorded, true)
  }

  function Next(w: World, env: NodeEnv, data: PrepareData): World {
    var p := Call(w, env, data);
    World(Obeys(Finish(w.node), p.requests), w.recorded || p.started, w.cleanings + Cleanings(p.requests))
  }

  function Rounds(w: World, env: NodeEnv, data: PrepareData, n: nat): World
    decreases n
  {
    if n == 0 then w else Rounds(Next(w, env, data), env, data, n - 1)
  }

  /** The calls that do not complete yet. */
  function Distance(w: World, env: NodeEnv, data: PrepareData): nat {
    var (node, cleans) := (Finish(w.node), !w.recorded && !NothingToClean(env, data));
    var unset: nat := if node.maintenance then 1 else 0;
    var manage: nat := if node.state == NodeCleanFail || (node.state == NodeAvailable && cleans) then 1 else 0;
    var clean: nat := if cleans then 1 else 0;
    if manage + clean == 0 then 0 else unset + manage + clean
  }

  lemma RoundCloser(w: World, env: NodeEnv, data: PrepareData)
    requires Smooth(env, data) && w.node.fault == "" && w.node.state != NodeOther
    ensures var (p, next) := (Call(w, env, data), Next(w, env, data));
            && next.node.fault == "" && next.node.state != NodeOther
            && (p.answer.Complete() <==> Distance(w, env, data) == 0)
            && Distance(w, env, data) <= 3 && (w.recorded ==> next.recorded)
            && (p.answer.Complete() ==>
                  next.recorded && next.cleanings == w.cleanings && Distance(next, env, data) == 0)
            && (!p.answer.Complete() ==>
                  && p.answer.Result? && p.answer.dirty && Distance(next, env, data) == Distance(w, env, data) - 1
                  && (if next.recorded == w.recorded then next.cleanings == w.cleanings
                      else next.cleanings == w.cleanings + [RAIDSteps(env, data)]))
            && (next.recorded != w.recorded ==> NothingToClean(env, data) == p.answer.Complete())
  {
    hide CleanSteps;
    var (p, node) := (Call(w, env, data), Finish(w.node));
    OneRequest(node, UnsetMaintenance);
    OneRequest(node, TargetManage);
    OneRequest(node, TargetClean(RAIDSteps(env, data)));
    assert w.cleanings + [] == w.cleanings;
  }

  lemma OneRequest(node: Node, request: Request)
    ensures Cleanings([request]) == if request.TargetClean? then [request.raidSteps] else []
    ensures Obeys(node, [request]) ==
            match request
            case UnsetMaintenance => node.(maintenance := false)
            case TargetManage => node.(state := NodeManageable)
            case TargetClean(_) => node.(state := NodeCleaning)
  {
    assert [request][1..] == [];
  }

  /** With every answer good, a node without a fault is prepared after exactly as many calls as its distance, three at
      most: then Prepare completes, the settings are on record, and exactly the steps for them were requested once, or
      none if there is nothing to clean or the settings were there. */
  lemma {:induction false} PreparingConverges(w: World, env: NodeEnv, data: PrepareData, n: nat)
    requires Smooth(env, data) && w.node.fault == "" && w.node.state != NodeOther
    ensures Distance(w, env, data) <= 3
    ensures Call(Rounds(w, env, data, n), env, data).answer.Complete() <==> n >= Distance(w, env, data)
    ensures n > Distance(w, env, data) ==>
              && Rounds(w, env, data, n).recorded
              && Rounds(w, env, data, n).cleanings ==
                 w.cleanings + if w.recorded || NothingToClean(env, data) then [] else [RAIDSteps(env, data)]
    decreases n
  {
    hide Call, Next, Distance, NothingToClean, RAIDSteps, Smooth;
    RoundCloser(w, env, data);
    if n > 0 {
      var next := Next(w, env, data);
      PreparingConverges(next, env, data, n - 1);
      assert w.cleanings + [] == w.cleanings && next.cleanings + [] == next.cleanings;
    }
  }
}
