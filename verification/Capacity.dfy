/** Limiting the hosts that are busy at the same time (HasCapacity and loadBusyHosts in
    pkg/provisioner/ironic/ironic.go). */
module Capacities {
  import opened HostTypes

  datatype ProvisionState =
    | Cleaning | CleanWait | Inspecting | InspectWait | Deploying | DeployWait | Deleting
    | OtherState

  datatype ListedNode = ListedNode(name: string, state: ProvisionState, bootInterface: string)

  const NAME_SEPARATOR := "~"

  /** ironicNodeName */
  function NodeName(namespace: string, name: string): string {
    namespace + NAME_SEPARATOR + name
  }

  /** Different hosts have nodes with different names: no namespace has the separator in it. */
  lemma NodeNamesDiffer(aSpace: string, aName: string, bSpace: string, bName: string)
    requires '~' !in aSpace && '~' !in bSpace && NodeName(aSpace, aName) == NodeName(bSpace, bName)
    ensures aSpace == bSpace && aName == bName
  {
    var (a, b) := (NodeName(aSpace, aName), NodeName(bSpace, bName));
    assert a[|aSpace|] == '~' && b[|bSpace|] == '~';
    assert forall i | 0 <= i < |aSpace| :: a[i] == aSpace[i];
    assert forall i | 0 <= i < |bSpace| :: b[i] == bSpace[i];
    assert |aSpace| == |bSpace|;
    assert a[..|aSpace|] == aSpace && b[..|bSpace|] == bSpace;
    assert a[|aSpace| + 1..] == aName && b[|bSpace| + 1..] == bName;
  }

  /** strings.Contains */
  predicate Contains(s: string, part: string) {
    exists i | 0 <= i <= |s| :: part <= s[i..]
  }

  predicate UsesVirtualMedia(node: ListedNode) {
    Contains(node.bootInterface, "virtual-media")
  }

  predicate IsBusy(node: ListedNode) {
    !node.state.OtherState? && !UsesVirtualMedia(node)
  }

  /** The names of the busy nodes; nodes with the same name count once. */
  function BusyNames(nodes: seq<ListedNode>): set<string> {
    set node | node in nodes && IsBusy(node) :: node.name
  }

  method LoadBusyHosts(nodes: seq<ListedNode>) returns (hosts: set<string>)
    ensures hosts == BusyNames(nodes)
  {
    hosts := {};
    for i := 0 to |nodes|
      invariant hosts == BusyNames(nodes[..i])
    {
      assert nodes[..i + 1] == nodes[..i] + [nodes[i]];
      match nodes[i].state {
        case Cleaning | CleanWait | Inspecting | InspectWait | Deploying | DeployWait | Deleting =>
          if !UsesVirtualMedia(nodes[i]) {
            hosts := hosts + {nodes[i].name};
          }
        case OtherState =>
      }
    }
    assert nodes[..|nodes|] == nodes;
  }

  /** What the capacity check reads: the BMC's access details, the list of nodes and the limit. */
  datatype Query = Query(accessError: bool, virtualMedia: bool, listError: bool, nodes: seq<ListedNode>,
                         maxBusyHosts: int)

  /** None is an error. Otherwise there is capacity exactly for hosts that use virtual media, for hosts that are busy
      already, and for as many others as the limit leaves room for: one more busy host must not exceed it. */
  method HasCapacity(query: Query, namespace: string, name: string) returns (result: Option<bool>)
    ensures result.None? <==> query.accessError || (!query.virtualMedia && query.listError)
    ensures result.Some? ==>
              var (busy, own) := (BusyNames(query.nodes), NodeName(namespace, name));
              result.value <==> query.virtualMedia || own in busy || |busy + {own}| <= query.maxBusyHosts
  {
    if query.accessError {
      return None;
    }
    if query.virtualMedia {
      return Some(true);
    }
    if query.listError {
      return None;
    }
    var hosts := LoadBusyHosts(query.nodes);
    if NodeName(namespace, name) in hosts {
      return Some(true);
    }
    result := Some(|hosts| < query.maxBusyHosts);
  }

  /** A node counts as busy while Ironic cleans, inspects, deploys or deletes it, or waits for one of these, unless the
      name of its boot interface has "virtual-media" in it. */
  lemma BusyNodesCount(nodes: seq<ListedNode>, node: ListedNode, before: string, after: string)
    ensures node.bootInterface == before + "virtual-media" + after ==> BusyNames(nodes + [node]) == BusyNames(nodes)
    ensures node.state == OtherState ==> BusyNames(nodes + [node]) == BusyNames(nodes)
    ensures node.state in {Cleaning, CleanWait, ProvisionState.Inspecting, InspectWait, Deploying, DeployWait,
                           ProvisionState.Deleting} ==>
              (forall i | 0 <= i <= |node.bootInterface| :: !("virtual-media" <= node.bootInterface[i..])) ==>
              BusyNames(nodes + [node]) == BusyNames(nodes) + {node.name}
  {
    if node.bootInterface == before + "virtual-media" + after {
      assert node.bootInterface[|before|..] == "virtual-media" + after;
      assert UsesVirtualMedia(node);
    }
  }

  /** The hosts admitted on one list, or on lists with the same busy hosts: the check and its effect are apart, so that
      nothing stops several reconciles from passing it before any of them makes its host busy. */
  predicate Admitted(nodes: seq<ListedNode>, admitted: set<string>, max: nat) {
    forall own | own in admitted :: own in BusyNames(nodes) || |BusyNames(nodes)| < max
  }

  /** Admitting n hosts at once takes the busy ones over the limit by n - 1 at most; hosts that were busy already do not
      count, and one host at a time keeps the limit. */
  lemma AdmissionKeepsLimit(before: seq<ListedNode>, after: seq<ListedNode>, admitted: set<string>, max: nat)
    requires |BusyNames(before)| <= max && Admitted(before, admitted, max)
    requires forall node | node in after && IsBusy(node) :: node.name in admitted || node in before
    ensures var added := |admitted - BusyNames(before)|;
            |BusyNames(after)| <= max + (if added == 0 then 0 else added - 1)
  {
    var added := admitted - BusyNames(before);
    assert BusyNames(after) <= BusyNames(before) + added;
    SubsetIsSmaller(BusyNames(after), BusyNames(before) + added);
    if added != {} {
      var own :| own in added;
      assert |BusyNames(before)| < max;
    }
  }

  /** A list of busy nodes with these names. */
  lemma {:induction false} BusyList(names: set<string>) returns (nodes: seq<ListedNode>)
    ensures BusyNames(nodes) == names && forall node | node in nodes :: IsBusy(node)
    decreases |names|
  {
    nodes := [];
    if names != {} {
      var name :| name in names;
      var rest := BusyList(names - {name});
      var node := ListedNode(name, Deploying, "");
      assert !UsesVirtualMedia(node);
      nodes := [node] + rest;
      assert IsBusy(node) && forall n :: n in nodes <==> n == node || n in rest;
      assert BusyNames(nodes) == {name} + BusyNames(rest);
    }
  }

  /** The bound is reached by any hosts that are not busy yet, when one more fits and all of them go ahead. */
  lemma OvershootIsReached(before: seq<ListedNode>, admitted: set<string>, max: nat) returns (after: seq<ListedNode>)
    requires |BusyNames(before)| == max - 1 && admitted !! BusyNames(before)
    ensures Admitted(before, admitted, max)
    ensures forall node | node in after && IsBusy(node) :: node.name in admitted || node in before
    ensures |BusyNames(after)| == max - 1 + |admitted|
  {
    var others := BusyList(admitted);
    after := before + others;
    assert BusyNames(after) == BusyNames(before) + admitted;
  }

  lemma SubsetIsSmaller<T>(a: set<T>, b: set<T>)
    requires a <= b
    ensures |a| <= |b|
  {
    assert |b - a| == |b| - |a|;
  }
}
