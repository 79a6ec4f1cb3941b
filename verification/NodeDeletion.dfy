/** Removing a node from Ironic (Delete, Detach and realDelete in pkg/provisioner/ironic/ironic.go). */
module NodeDeletion {
  import opened HostTypes
  import opened IronicPrepare

  datatype Provision =
    | Verifying | Enroll | Available | Manageable
    | Deploying | Cleaning | Inspecting | Servicing | Deleting
    | DeployWait | InspectWait | CleanWait | ServiceWait
    | Settled // active, failed, on hold and every other state in which nothing is under way

  datatype Node = Node(state: Provision, maintenance: bool, fault: string, instanceUUID: string)

  datatype DeleteAnswer = Removed | RemovalConflict | AlreadyGone | RemovalError

  /** Whether the host knows the ID of its node, and how Ironic answers look-ups, writes and removals. */
  datatype Env = Env(idKnown: bool, lookupFails: bool, write: ApiAnswer, removal: DeleteAnswer, abortsDeployments: bool)

  datatype Request = ClearInstance | SetMaintenance | ClearMaintenance | Undeploy | Abort | Remove

  /** The node afterwards, the answer, and the requests sent to Ironic. */
  datatype Outcome = Outcome(node: Option<Node>, answer: Answer, requests: seq<Request>)

  predicate Busy(state: Provision) {
    state in {Verifying, Deploying, Cleaning, Provision.Inspecting, Provision.Servicing, Provision.Deleting}
  }

  predicate Waiting(state: Provision) {
    state in {DeployWait, InspectWait, CleanWait, ServiceWait}
  }

  function WriteResult(write: ApiAnswer, delay: nat): Answer {
    match write
    case Accepted => OperationContinuing(delay)
    case Conflict => OperationContinuing(REQUEUE_DELAY)
    case Refused => Error(false)
  }

  function Written(before: Node, after: Node, write: ApiAnswer): Option<Node> {
    Some(if write == Accepted then after else before)
  }

  /** changeNodeProvisionState: once the change is accepted, Ironic works on the node. */
  function ChangeState(node: Node, env: Env, request: Request): Outcome {
    if node.fault != "" then Outcome(Some(node), OperationContinuing(REQUEUE_DELAY), [])
    else if node.maintenance then
      Outcome(Written(node, node.(maintenance := false), env.write), WriteResult(env.write, 0), [ClearMaintenance])
    else Outcome(Written(node, node.(state := Provision.Deleting), env.write), WriteResult(env.write, REQUEUE_DELAY),
      [request])
  }

  function RemoveNode(node: Node, env: Env): Outcome {
    match env.removal
    case Removed => Outcome(None, OperationContinuing(0), [Remove])
    case AlreadyGone => Outcome(None, OperationContinuing(0), [Remove])
    case RemovalConflict => Outcome(Some(node), OperationContinuing(REQUEUE_DELAY), [Remove])
    case RemovalError => Outcome(Some(node), Error(false), [Remove])
  }

  /** realDelete */
  function RealDelete(node: Node, env: Env, force: bool): Outcome {
    if Busy(node.state) || (Waiting(node.state) && !force) then
      Outcome(Some(node), OperationContinuing(REQUEUE_DELAY), [])
    else if Waiting(node.state) then
      ChangeState(node, env, if node.state == DeployWait && !env.abortsDeployments then Undeploy else Abort)
    else if node.state in {Provision.Available, Manageable} && node.instanceUUID != "" then
      if env.write != Accepted then Outcome(Some(node), WriteResult(env.write, 0), [ClearInstance])
      else
        var r := RemoveNode(node.(instanceUUID := ""), env);
        r.(requests := [ClearInstance] + r.requests)
    else if node.state == Settled && !node.maintenance then
      Outcome(Written(node, node.(maintenance := true), env.write), WriteResult(env.write, 0), [SetMaintenance])
    else RemoveNode(node, env)
  }

  /** Delete, and Detach with its `force` flag. */
  function Delete(node: Option<Node>, env: Env, force: bool): Outcome {
    if !env.idKnown then Outcome(node, OperationComplete(), [])
    else if env.lookupFails then Outcome(node, Error(false), [])
    else if node.None? then Outcome(None, OperationComplete(), [])
    else RealDelete(node.value, env, force)
  }

  // ----- the source's procedure -----

  /** A handle on the node of a host, with the requests that were sent for it. */
  class NodeHandle {
    const env: Env
    var node: Option<Node>
    var requests: seq<Request>

    constructor (node: Option<Node>, env: Env)
      ensures this.env == env && this.node == node && requests == []
    {
      this.env, this.node, requests := env, node, [];
    }

    method Write(after: Node, delay: nat, request: Request) returns (answer: Answer)
      requires node.Some?
      modifies this
      ensures node == Written(old(node).value, after, env.write)
      ensures answer == WriteResult(env.write, delay) && requests == old(requests) + [request]
    {
      requests := requests + [request];
      match env.write {
        case Accepted =>
          node := Some(after);
          answer := OperationContinuing(delay);
        case Conflict => answer := OperationContinuing(REQUEUE_DELAY);
        case Refused => answer := Error(false);
      }
    }

    method ChangeNodeState(request: Request) returns (answer: Answer)
      requires node.Some?
      modifies this
      ensures var r := ChangeState(old(node).value, env, request);
              node == r.node && answer == r.answer && requests == old(requests) + r.requests
    {
      if node.value.fault != "" {
        return OperationContinuing(REQUEUE_DELAY);
      }
      if node.value.maintenance {
        answer := Write(node.value.(maintenance := false), 0, ClearMaintenance);
        return;
      }
      answer := Write(node.value.(state := Provision.Deleting), REQUEUE_DELAY, request);
    }

    method DeleteNode(force: bool) returns (answer: Answer)
      modifies this
      ensures var r := Delete(old(node), env, force);
              node == r.node && answer == r.answer && requests == old(requests) + r.requests
    {
      if !env.idKnown {
        return OperationComplete();
      }
      if env.lookupFails {
        return Error(false);
      }
      if node == None {
        return OperationComplete();
      }
      match node.value.state {
        case Verifying => return OperationContinuing(REQUEUE_DELAY);
        case Enroll =>
        case Available | Manageable =>
          if node.value.instanceUUID != "" {
            answer := Write(node.value.(instanceUUID := ""), 0, ClearInstance);
            if env.write != Accepted {
              return;
            }
          }
        case Deploying | Cleaning | Inspecting | Servicing | Deleting => return OperationContinuing(REQUEUE_DELAY);
        case DeployWait | InspectWait | CleanWait | ServiceWait =>
          if force {
            var undeploy := node.value.state == DeployWait && !env.abortsDeployments;
            answer := ChangeNodeState(if undeploy then Undeploy else Abort);
            return;
          }
          return OperationContinuing(REQUEUE_DELAY);
        case Settled =>
          if !node.value.maintenance {
            answer := Write(node.value.(maintenance := true), 0, SetMaintenance);
            return;
          }
      }
      requests := requests + [Remove];
      match env.removal {
        case Removed | AlreadyGone => node := None;
        case RemovalConflict => return OperationContinuing(REQUEUE_DELAY);
        case RemovalError => return Error(false);
      }
      answer := OperationContinuing(0);
    }
  }

  // ----- what deletion promises -----

  /** Deletion is complete exactly when there is no node to be found; and it never reports a failure, which the caller
      would not look at. */
  lemma CompleteMeansGone(node: Option<Node>, env: Env, force: bool)
    ensures var r := Delete(node, env, force);
            && (r.answer.Complete() <==> !env.idKnown || (!env.lookupFails && node.None?))
            && (r.answer.Result? ==> r.answer.message == NoMessage)
  {
  }

  /** A node is removed only while nothing is under way on it, and then only one that is enrolled, free of an instance,
      or in maintenance. */
  lemma RemovalIsSafe(node: Node, env: Env, force: bool)
    requires Remove in RealDelete(node, env, force).requests
    ensures !Busy(node.state) && !Waiting(node.state)
    ensures node.state in {Enroll, Provision.Available, Manageable} || node.maintenance
    ensures node.state in {Provision.Available, Manageable} && node.instanceUUID != "" ==>
              RealDelete(node, env, force).requests == [ClearInstance, Remove]
  {
  }

  /** What a round that finds the node asks and answers: nothing while Ironic is at work or waits and is not to be cut
      short; to be cut short, the one request that ends the waiting, unless there is a fault; a node is gone when it was
      removed now or before; and refusals are errors while conflicts wait. */
  lemma DeletionReports(node: Node, env: Env, force: bool)
    ensures var r := RealDelete(node, env, force);
            && (Busy(node.state) || (Waiting(node.state) && !force) ==>
                  r == Outcome(Some(node), OperationContinuing(REQUEUE_DELAY), []))
            && (Waiting(node.state) && force ==>
                  r.requests == if node.fault != "" then [] else if node.maintenance then [ClearMaintenance]
                                else if node.state == DeployWait && !env.abortsDeployments then [Undeploy] else [Abort])
            && (Remove in r.requests && ClearInstance in r.requests ==> env.write == Accepted)
            && (Remove in r.requests ==>
                  && (r.node.None? <==> env.removal in {Removed, AlreadyGone})
                  && r.answer ==
                     (if env.removal == RemovalError then Error(false)
                      else OperationContinuing(if env.removal == RemovalConflict then REQUEUE_DELAY else 0)))
            && (r.requests != [] && Remove !in r.requests ==>
                  if env.write == Refused then r.answer == Error(false) else r.answer.Result? && r.answer.dirty)
            && (r.requests != [] && Remove !in r.requests && env.write != Accepted ==> r.node == Some(node))
  {
  }

  /** Every request succeeds. */
  predicate Smooth(env: Env) {
    env.idKnown && !env.lookupFails && env.write == Accepted && env.removal == Removed
  }

  /** Ironic finishes what it is doing, and what it waits for arrives unless deletion is to cut it short. */
  function Finish(node: Option<Node>, force: bool): Option<Node> {
    if node.Some? && (Busy(node.value.state) || (Waiting(node.value.state) && !force))
    then Some(node.value.(state := Settled)) else node
  }

  function Rounds(node: Option<Node>, env: Env, force: bool, n: nat): Option<Node>
    decreases n
  {
    if n == 0 then node else Rounds(Delete(Finish(node, force), env, force).node, env, force, n - 1)
  }

  /** The successful rounds that a node is away from being gone. */
  function Distance(node: Option<Node>, force: bool): nat {
    match Finish(node, force)
    case None => 0
    case Some(n) =>
      if Waiting(n.state) then (if n.maintenance then 4 else 3)
      else if n.state == Settled && !n.maintenance then 2
      else 1
  }

  /** A node without a fault is gone after exactly as many successful rounds as its distance, four at most. */
  lemma {:induction false} DeletionConverges(node: Option<Node>, env: Env, force: bool, n: nat)
    requires Smooth(env) && (node.Some? ==> node.value.fault == "")
    ensures Distance(node, force) <= 4
    ensures Rounds(node, env, force, n).None? <==> n >= Distance(node, force)
    decreases n
  {
    var next := Delete(Finish(node, force), env, force).node;
    if n > 0 {
      assert Distance(next, force) == if Distance(node, force) == 0 then 0 else Distance(node, force) - 1;
      DeletionConverges(next, env, force, n - 1);
    }
  }
}
