/** Associating a HostClaim with a host (pkg/hostclaim/hostclaim_manager.go). */
module HostClaims {
  import opened HostTypes
  import opened LabelSelectors

  const HOST_CLAIM_KIND := "HostClaim"
  const METAL3_GROUP := "metal3.io"
  const FAILURE_DOMAIN_LABEL := "infrastructure.cluster.x-k8s.io/failure-domain"

  datatype ConsumerRef = ConsumerRef(kind: string, group: string, namespace: string, name: string)

  datatype Key = Key(namespace: string, name: string)

  /** A host as the API server lists it; `version` is its resource version. */
  datatype Host = Host(
    version: nat,
    labels: Labels,
    consumer: Option<ConsumerRef>,
    deleting: bool,
    paused: bool,
    state: State,
    hasErrorMessage: bool)

  type Hosts = map<Key, Host>

  /** `domainWellFormed` tells whether the failure domain has the syntax of a label value. */
  datatype Claim = Claim(
    namespace: string,
    name: string,
    inNamespace: string,
    selector: HostSelector,
    failureDomain: string,
    domainWellFormed: bool)

  // ----- namespaces that accept a claim -----

  /** A regular expression that does not compile has no answer. */
  datatype Match = BadPattern | Answer(matches: bool)

  datatype LabelPair = LabelPair(name: string, value: string)

  /** The constraints on the namespaces of claims; `nameMatches` is a regular expression, and `match_` what it says of
      the namespace of the claim at hand. */
  datatype Constraints = Constraints(names: Option<seq<string>>, nameMatches: string, match_: Match,
                                     hasLabels: seq<LabelPair>)

  datatype Policy = Policy(namespace: string, constraints: Option<Constraints>)

  predicate NamesAllow(c: Constraints, namespace: string) {
    c.names.Some? ==> namespace in c.names.value
  }

  predicate LabelHolds(pair: LabelPair, labels: Labels) {
    pair.name in labels && (pair.value == "" || labels[pair.name] == pair.value)
  }

  predicate Accepts(p: Policy, namespace: string, labels: Labels) {
    && p.constraints.Some?
    && NamesAllow(p.constraints.value, namespace)
    && (p.constraints.value.nameMatches != "" ==> p.constraints.value.match_ == Answer(true))
    && forall pair | pair in p.constraints.value.hasLabels :: LabelHolds(pair, labels)
  }

  /** The policy's pattern is looked at and does not compile. */
  predicate Breaks(p: Policy, namespace: string) {
    && p.constraints.Some? && NamesAllow(p.constraints.value, namespace)
    && p.constraints.value.nameMatches != "" && p.constraints.value.match_.BadPattern?
  }

  /** The namespaces of the policies that accept the claim. */
  function Accepting(policies: seq<Policy>, namespace: string, labels: Labels): set<string> {
    set p | p in policies && Accepts(p, namespace, labels) :: p.namespace
  }

  /** A broken policy is met before its namespace is accepted because of another one. */
  predicate Fails(policies: seq<Policy>, namespace: string, labels: Labels) {
    exists i | 0 <= i < |policies| ::
      Breaks(policies[i], namespace) && policies[i].namespace !in Accepting(policies[..i], namespace, labels)
  }

  /** The policies that the API server lists: all of them, or those of the namespace the claim asks for. */
  function Listed(policies: seq<Policy>, inNamespace: string): (listed: seq<Policy>)
    ensures forall p :: p in listed <==> p in policies && (inNamespace != "" ==> p.namespace == inNamespace)
  {
    if policies == [] then []
    else
      (if inNamespace == "" || policies[0].namespace == inNamespace then [policies[0]] else []) +
      Listed(policies[1..], inNamespace)
  }

  /** The namespaces in which a claim may look for hosts. */
  function Namespaces(policies: seq<Policy>, claim: Claim, labels: Labels): (namespaces: set<string>)
    ensures claim.inNamespace != "" ==> namespaces <= {claim.inNamespace}
  {
    Accepting(Listed(policies, claim.inNamespace), claim.namespace, labels)
  }

  /** A claim may look for hosts in a namespace if and only if some policy there accepts it: one that says whose claims
      it accepts, and says nothing, by names, pattern or labels, that shuts out the namespace of the claim; and if the
      claim names a namespace, in this one only. */
  lemma AcceptableMeans(policies: seq<Policy>, claim: Claim, labels: Labels, namespace: string)
    ensures namespace in Namespaces(policies, claim, labels) <==>
            && (claim.inNamespace == "" || claim.inNamespace == namespace)
            && exists p | p in policies ::
                 && p.namespace == namespace && p.constraints.Some?
                 && (p.constraints.value.names.None? || claim.namespace in p.constraints.value.names.value)
                 && (p.constraints.value.nameMatches == "" || p.constraints.value.match_ == Answer(true))
                 && forall pair | pair in p.constraints.value.hasLabels ::
                      pair.name in labels && (pair.value == "" || pair.value == labels[pair.name])
  {
    hide Listed;
  }

  method CheckLabels(required: seq<LabelPair>, labels: Labels) returns (ok: bool)
    ensures ok <==> forall pair | pair in required :: LabelHolds(pair, labels)
  {
    for i := 0 to |required|
      invariant forall j | 0 <= j < i :: LabelHolds(required[j], labels)
    {
      var pair := required[i];
      assert pair in required;
      if pair.name in labels {
        if pair.value != "" && labels[pair.name] != pair.value {
          return false;
        }
      } else {
        return false;
      }
    }
    ok := true;
  }

  lemma AcceptingNext(policies: seq<Policy>, i: nat, namespace: string, labels: Labels)
    requires i < |policies|
    ensures Accepting(policies[..i + 1], namespace, labels) ==
            Accepting(policies[..i], namespace, labels) +
            if Accepts(policies[i], namespace, labels) then {policies[i].namespace} else {}
  {
    assert policies[..i + 1] == policies[..i] + [policies[i]];
  }

  /** acceptableNamespaces, on the policies listed: exactly the namespaces of the accepting ones, or an error. */
  method AcceptableNamespaces(policies: seq<Policy>, namespace: string, labels: Labels)
    returns (namespaces: set<string>, ok: bool)
    ensures ok <==> !Fails(policies, namespace, labels)
    ensures ok ==> namespaces == Accepting(policies, namespace, labels)
  {
    namespaces := {};
    for i := 0 to |policies|
      invariant namespaces == Accepting(policies[..i], namespace, labels)
      invariant forall j | 0 <= j < i ::
                  Breaks(policies[j], namespace) ==>
                    policies[j].namespace in Accepting(policies[..j], namespace, labels)
    {
      AcceptingNext(policies, i, namespace, labels);
      var p := policies[i];
      if p.namespace in namespaces {
        continue;
      }
      if p.constraints == None {
        continue;
      }
      var c := p.constraints.value;
      if c.names != None && namespace !in c.names.value {
        continue;
      }
      if c.nameMatches != "" {
        if c.match_.BadPattern? {
          return {}, false;
        }
        if !c.match_.matches {
          continue;
        }
      }
      var labelled := CheckLabels(c.hasLabels, labels);
      if !labelled {
        continue;
      }
      namespaces := namespaces + {p.namespace};
    }
    assert policies[..|policies|] == policies;
    ok := true;
  }

  // ----- choosing a host -----

  /** consumerRefMatches */
  predicate ConsumerRefMatches(ref: ConsumerRef, claim: Claim) {
    && ref.name == claim.name && ref.namespace == claim.namespace
    && ref.kind == HOST_CLAIM_KIND && ref.group == METAL3_GROUP
  }

  predicate Held(h: Host, claim: Claim) {
    h.consumer.Some? && ConsumerRefMatches(h.consumer.value, claim)
  }

  predicate Free(h: Host) {
    h.consumer.None? && !h.deleting && !h.paused && h.state in {Ready, Available} && !h.hasErrorMessage
  }

  /** What the API server lists for the claim: hosts of an acceptable namespace with the wanted labels. */
  predicate Eligible(k: Key, h: Host, claim: Claim, namespaces: set<string>) {
    k.namespace in namespaces && ValidSelector(claim.selector) && Selects(claim.selector, h.labels)
  }

  predicate InDomain(h: Host, claim: Claim) {
    FAILURE_DOMAIN_LABEL in h.labels && h.labels[FAILURE_DOMAIN_LABEL] == claim.failureDomain
  }

  predicate HoldsEligible(view: Hosts, k: Key, claim: Claim, namespaces: set<string>) {
    k in view && Eligible(k, view[k], claim, namespaces) && Held(view[k], claim)
  }

  predicate IsAvailable(view: Hosts, k: Key, claim: Claim, namespaces: set<string>) {
    k in view && Eligible(k, view[k], claim, namespaces) && Free(view[k])
  }

  /** The hosts that may be chosen: one that the claim holds already if there is any; otherwise a free one, and one of
      the claim's failure domain if there is any there. */
  predicate IsChoice(view: Hosts, k: Key, claim: Claim, namespaces: set<string>) {
    if exists x | x in view :: HoldsEligible(view, x, claim, namespaces) then HoldsEligible(view, k, claim, namespaces)
    else
      && IsAvailable(view, k, claim, namespaces)
      && (&& claim.failureDomain != ""
          && (exists x | x in view :: IsAvailable(view, x, claim, namespaces) && InDomain(view[x], claim))
          ==> InDomain(view[k], claim))
  }

  /** A host that may be chosen is in an acceptable namespace and has the labels; it is the claim's already, or
      nobody's, not paused, not being deleted, available and without an error. */
  lemma ChoicesAreFit(view: Hosts, k: Key, claim: Claim, namespaces: set<string>)
    requires IsChoice(view, k, claim, namespaces)
    ensures k in view && k.namespace in namespaces
    ensures ValidSelector(claim.selector) && Selects(claim.selector, view[k].labels)
    ensures view[k].consumer == Some(ConsumerRef("HostClaim", "metal3.io", claim.namespace, claim.name))
            || (&& view[k].consumer.None? && !view[k].paused && !view[k].deleting && !view[k].hasErrorMessage
                && (view[k].state == Available || view[k].state == Ready))
  {
  }

  /** Of free hosts, one with the label of the claim's failure domain is chosen if there is any. */
  lemma ChoicesPreferTheDomain(view: Hosts, k: Key, x: Key, claim: Claim, namespaces: set<string>)
    requires IsChoice(view, k, claim, namespaces) && !Held(view[k], claim) && claim.failureDomain != ""
    requires x in view && IsAvailable(view, x, claim, namespaces)
    requires "infrastructure.cluster.x-k8s.io/failure-domain" in view[x].labels
             && view[x].labels["infrastructure.cluster.x-k8s.io/failure-domain"] == claim.failureDomain
    ensures "infrastructure.cluster.x-k8s.io/failure-domain" in view[k].labels
            && view[k].labels["infrastructure.cluster.x-k8s.io/failure-domain"] == claim.failureDomain
  {
    assert InDomain(view[x], claim);
  }

  predicate NothingToChoose(view: Hosts, claim: Claim, namespaces: set<string>) {
    forall k | k in view :: !HoldsEligible(view, k, claim, namespaces) && !IsAvailable(view, k, claim, namespaces)
  }

  /** Listing the hosts of a namespace that meet the requirements, in an arbitrary order. */
  method List(view: Hosts, namespace: string, requirements: seq<Requirement>) returns (items: seq<Key>)
    ensures forall k :: k in items <==>
              k in view && k.namespace == namespace && MatchesAll(requirements, view[k].labels)
  {
    items := [];
    var todo := view.Keys;
    while todo != {}
      invariant todo <= view.Keys
      invariant forall k :: k in items <==>
                  k in view && k !in todo && k.namespace == namespace && MatchesAll(requirements, view[k].labels)
      decreases todo
    {
      var k :| k in todo;
      todo := todo - {k};
      if k.namespace == namespace && MatchesAll(requirements, view[k].labels) {
        items := items + [k];
      }
    }
  }

  /** pickHost: any host of the failure domain, or any at all if there is none; None is the error of a failure domain
      that is no label value. */
  method PickHost(view: Hosts, available: seq<Key>, claim: Claim) returns (picked: Option<Key>)
    requires available != [] && forall k | k in available :: k in view
    ensures picked.None? <==> claim.failureDomain != "" && !claim.domainWellFormed
    ensures picked.Some? ==> picked.value in available
    ensures picked.Some? && claim.failureDomain != "" && (exists k | k in available :: InDomain(view[k], claim)) ==>
              InDomain(view[picked.value], claim)
  {
    var inDomain: seq<Key> := [];
    if claim.failureDomain != "" {
      var r := NewRequirement(FAILURE_DOMAIN_LABEL, "=", [claim.failureDomain], claim.domainWellFormed);
      if r == None {
        return None;
      }
      for i := 0 to |available|
        invariant forall k :: k in inDomain <==> k in available[..i] && InDomain(view[k], claim)
      {
        if Matches(r.value, view[available[i]].labels) {
          inDomain := inDomain + [available[i]];
        }
        assert available[..i + 1] == available[..i] + [available[i]];
      }
      assert available[..|available|] == available;
    }
    if |inDomain| > 0 {
      var i: nat :| i < |inDomain|;
      picked := Some(inDomain[i]);
    } else {
      var i: nat :| i < |available|;
      picked := Some(available[i]);
    }
  }

  datatype Choice = Chosen(key: Key) | NoAvailableHost | ChoiceError

  /** What the API server refuses: the policies, the namespace of the claim, or the hosts of some namespaces. */
  datatype Refusals = Refusals(policies: bool, claimNamespace: bool, hosts: set<string>)

  /** The namespaces cannot be determined. */
  predicate NamespacesFail(claim: Claim, policies: seq<Policy>, namespaceLabels: Labels, refusals: Refusals) {
    || refusals.policies || refusals.claimNamespace
    || Fails(Listed(policies, claim.inNamespace), claim.namespace, namespaceLabels)
  }

  /** There is a host to pick, but the failure domain is no label value. */
  predicate DomainFails(view: Hosts, claim: Claim, namespaces: set<string>) {
    && claim.failureDomain != "" && !claim.domainWellFormed
    && (exists k | k in view :: IsAvailable(view, k, claim, namespaces))
    && (forall k | k in view :: !HoldsEligible(view, k, claim, namespaces))
  }

  /** chooseBMH: the namespaces are visited in an arbitrary order, and the search stops at a host already held. When
      hosts cannot be listed everywhere, the search fails unless it meets such a host before. */
  method ChooseBMH(view: Hosts, claim: Claim, policies: seq<Policy>, namespaceLabels: Labels, refusals: Refusals)
    returns (choice: Choice)
    ensures var namespaces := Namespaces(policies, claim, namespaceLabels);
            if NamespacesFail(claim, policies, namespaceLabels, refusals) then choice.ChoiceError?
            else if namespaces == {} then choice.NoAvailableHost?
            else if !ValidSelector(claim.selector) then choice.ChoiceError?
            else
              && (choice.Chosen? ==> IsChoice(view, choice.key, claim, namespaces))
              && (choice.NoAvailableHost? ==> NothingToChoose(view, claim, namespaces))
              && (namespaces !! refusals.hosts ==> (choice.ChoiceError? <==> DomainFails(view, claim, namespaces)))
              && (!(namespaces !! refusals.hosts) ==>
                    choice.ChoiceError? || (choice.Chosen? && HoldsEligible(view, choice.key, claim, namespaces)))
  {
    if refusals.policies || refusals.claimNamespace {
      return ChoiceError;
    }
    var namespaces, ok := AcceptableNamespaces(Listed(policies, claim.inNamespace), claim.namespace, namespaceLabels);
    if !ok {
      return ChoiceError;
    }
    if namespaces == {} {
      return NoAvailableHost;
    }
    var requirements, valid := HostLabelSelectorForHostClaim(claim.selector);
    if !valid {
      return ChoiceError;
    }
    choice := ChooseIn(view, claim, namespaces, requirements, refusals.hosts);
  }

  method ChooseIn(view: Hosts, claim: Claim, namespaces: set<string>, requirements: seq<Requirement>,
                  refused: set<string>)
    returns (choice: Choice)
    requires ValidSelector(claim.selector)
    requires forall labels: Labels :: MatchesAll(requirements, labels) <==> Selects(claim.selector, labels)
    ensures choice.Chosen? ==> IsChoice(view, choice.key, claim, namespaces)
    ensures choice.NoAvailableHost? ==> NothingToChoose(view, claim, namespaces)
    ensures namespaces !! refused ==> (choice.ChoiceError? <==> DomainFails(view, claim, namespaces))
    ensures !(namespaces !! refused) ==>
              choice.ChoiceError? || (choice.Chosen? && HoldsEligible(view, choice.key, claim, namespaces))
  {
    hide MatchesAll, Selects, ValidSelector;
    var available: seq<Key> := [];
    var todo := namespaces;
    while todo != {}
      invariant todo <= namespaces && (namespaces - todo) !! refused
      invariant forall k ::
                  k in available <==> k.namespace in namespaces - todo && IsAvailable(view, k, claim, namespaces)
      invariant forall k | HoldsEligible(view, k, claim, namespaces) :: k.namespace in todo
      decreases todo
    {
      var namespace :| namespace in todo;
      if namespace in refused {
        return ChoiceError;
      }
      var items := List(view, namespace, requirements);
      var before := available;
      for i := 0 to |items|
        invariant forall k :: k in available <==> k in before || (k in items[..i] && Free(view[k]))
        invariant forall k | k in items[..i] :: !Held(view[k], claim)
      {
        assert items[..i + 1] == items[..i] + [items[i]];
        var h := view[items[i]];
        if h.consumer != None && ConsumerRefMatches(h.consumer.value, claim) {
          assert HoldsEligible(view, items[i], claim, namespaces);
          return Chosen(items[i]);
        }
        if h.consumer != None || h.deleting || h.paused {
          continue;
        }
        if h.state != Ready && h.state != Available {
          continue;
        }
        if h.hasErrorMessage {
          continue;
        }
        available := available + [items[i]];
      }
      assert items[..|items|] == items;
      todo := todo - {namespace};
    }
    if available == [] {
      return NoAvailableHost;
    }
    assert IsAvailable(view, available[0], claim, namespaces);
    var picked := PickHost(view, available, claim);
    choice := if picked.None? then ChoiceError else Chosen(picked.value);
  }

  // ----- associating -----

  /** The reference that Associate writes. */
  function RefTo(claim: Claim): ConsumerRef {
    ConsumerRef(HOST_CLAIM_KIND, METAL3_GROUP, claim.namespace, claim.name)
  }

  datatype WriteAnswer = Written | Conflict | WriteError

  /** The API server refuses an update made to another version than the current one. */
  class ApiServer {
    var hosts: Hosts
    var clock: nat

    constructor (hosts: Hosts, clock: nat)
      ensures this.hosts == hosts && this.clock == clock
    {
      this.hosts, this.clock := hosts, clock;
    }

    method Update(k: Key, h: Host, refused: bool) returns (answer: WriteAnswer)
      modifies this
      ensures answer.WriteError? <==> refused
      ensures answer.Written? <==> !refused && k in old(hosts) && old(hosts)[k].version == h.version
      ensures clock == if answer.Written? then old(clock) + 1 else old(clock)
      ensures hosts == if answer.Written? then old(hosts)[k := h.(version := clock)] else old(hosts)
    {
      if refused {
        return WriteError;
      }
      if k !in hosts || hosts[k].version != h.version {
        return Conflict;
      }
      clock := clock + 1;
      hosts := hosts[k := h.(version := clock)];
      answer := Written;
    }
  }

  datatype Association = Associated(key: Key) | Requeued | NotWritten(conflict: bool) | NotChosen

  class HostManager {
    const claim: Claim
    var bareMetalHost: Option<Key>

    constructor (claim: Claim, bareMetalHost: Option<Key>)
      ensures this.claim == claim && this.bareMetalHost == bareMetalHost
    {
      this.claim, this.bareMetalHost := claim, bareMetalHost;
    }

    /** The hosts are those that were listed, which need not be the current ones any more. */
    method Associate(server: ApiServer, listed: Hosts, policies: seq<Policy>, namespaceLabels: Labels,
                     refusals: Refusals, refused: bool)
      returns (association: Association)
      modifies this, server
      ensures association.Associated? ==>
                var k := association.key;
                && IsChoice(listed, k, claim, Namespaces(policies, claim, namespaceLabels))
                && k in old(server.hosts) && old(server.hosts)[k].version == listed[k].version
                && server.hosts ==
                   old(server.hosts)[k := listed[k].(consumer := Some(RefTo(claim)), version := server.clock)]
                && bareMetalHost == Some(k)
      ensures !association.Associated? ==> server.hosts == old(server.hosts) && bareMetalHost == old(bareMetalHost)
      ensures association.Requeued? ==> NothingToChoose(listed, claim, Namespaces(policies, claim, namespaceLabels))
    {
      var choice := ChooseBMH(listed, claim, policies, namespaceLabels, refusals);
      if choice.ChoiceError? {
        return NotChosen;
      }
      if choice.NoAvailableHost? {
        return Requeued;
      }
      var h := listed[choice.key].(consumer := Some(RefTo(claim)));
      var answer := server.Update(choice.key, h, refused);
      if answer != Written {
        return NotWritten(answer.Conflict?);
      }
      bareMetalHost := Some(choice.key);
      association := Associated(choice.key);
    }
  }
}
