/** Many claims choosing among the same hosts, one API call at a time. */
module ClaimProtocol {
  import opened HostTypes
  import opened LabelSelectors
  import opened HostClaims

  /** A host as it was listed, chosen but not yet written. */
  datatype Pending = Pending(key: Key, host: Host)

  /** `clock` is the last resource version the server gave out. */
  datatype System = System(hosts: Hosts, clock: nat, pending: map<Claim, Pending>)

  /** A claim's controller lists the hosts of some namespaces and chooses one, writes the reference, or gives up; or
      somebody else writes or deletes a host. */
  datatype Event =
    | Choose(claim: Claim, listed: Hosts, namespaces: set<string>, key: Key)
    | Write(claim: Claim)
    | GiveUp(claim: Claim)
    | Change(key: Key, host: Host)
    | Delete(key: Key)

  /** A list may be out of date, but a version stands for one content. */
  predicate Listable(s: System, listed: Hosts) {
    forall k | k in listed :: listed[k].version <= s.clock
                              && (k in s.hosts && s.hosts[k].version == listed[k].version ==> s.hosts[k] == listed[k])
  }

  predicate Succeeds(s: System, p: Pending) {
    p.key in s.hosts && s.hosts[p.key].version == p.host.version
  }

  /** What a successful write leaves. */
  function Written(s: System, c: Claim, p: Pending): System {
    System(s.hosts[p.key := p.host.(consumer := Some(RefTo(c)), version := s.clock + 1)], s.clock + 1, s.pending - {c})
  }

  /** Policies, labels and references may change at any time, and in any way. */
  predicate Step(s: System, e: Event, t: System) {
    match e
    case Choose(c, listed, namespaces, k) =>
      && Listable(s, listed) && k in listed && IsChoice(listed, k, c, namespaces)
      && t == s.(pending := s.pending[c := Pending(k, listed[k])])
    case Write(c) =>
      && c in s.pending
      && t == if Succeeds(s, s.pending[c]) then Written(s, c, s.pending[c]) else s.(pending := s.pending - {c})
    case GiveUp(c) => t == s.(pending := s.pending - {c})
    case Change(k, h) => t == s.(hosts := s.hosts[k := h.(version := s.clock + 1)], clock := s.clock + 1)
    case Delete(k) => t == s.(hosts := s.hosts - {k})
  }

  // ----- no host is taken from another claim -----

  /** What a pending host can be: known to the server at some time, and then free or held by the claim. */
  predicate PendingInv(s: System, c: Claim, p: Pending) {
    && p.host.version <= s.clock
    && (Succeeds(s, p) ==> s.hosts[p.key] == p.host)
    && (p.host.consumer.None? || Held(p.host, c))
  }

  predicate VersionsInv(s: System) {
    && (forall k | k in s.hosts :: s.hosts[k].version <= s.clock)
    && (forall c | c in s.pending :: PendingInv(s, c, s.pending[c]))
  }

  lemma StepKeepsVersions(s: System, e: Event, t: System)
    requires VersionsInv(s) && Step(s, e, t)
    ensures VersionsInv(t)
  {
  }

  /** Even on an out-of-date list: if a claim's write succeeds, the host was free or its own, so that a reference to
      anybody else stays; and every other host is left alone. */
  lemma WritesNeverSteal(s: System, c: Claim, t: System, k: Key, ref: ConsumerRef)
    requires VersionsInv(s) && Step(s, Write(c), t)
    requires k in s.hosts && s.hosts[k].consumer == Some(ref) && !ConsumerRefMatches(ref, c)
    ensures k in t.hosts && t.hosts[k] == s.hosts[k]
  {
  }

  // ----- over whole runs -----

  /** Nothing is under way. */
  predicate Init(s: System) {
    s.pending == map[] && forall k | k in s.hosts :: s.hosts[k].version <= s.clock
  }

  ghost predicate Execution(states: seq<System>, events: seq<Event>) {
    && |states| == |events| + 1 && Init(states[0])
    && forall i | 0 <= i < |events| :: Step(states[i], events[i], states[i + 1])
  }

  lemma {:induction false} VersionsHold(states: seq<System>, events: seq<Event>, i: nat)
    requires Execution(states, events) && i < |states|
    ensures VersionsInv(states[i])
  {
    if i > 0 {
      VersionsHold(states, events, i - 1);
      StepKeepsVersions(states[i - 1], events[i - 1], states[i]);
    }
  }

  /** In every interleaving of any number of claims with each other and with anybody else, whatever becomes of policies,
      labels and references, and even with lists that are out of date, a write by one claim never changes a host that
      carries the reference of another. */
  lemma AssociationIsSafe(states: seq<System>, events: seq<Event>, i: nat, k: Key)
    requires Execution(states, events) && i < |events| && events[i].Write?
    requires k in states[i].hosts && states[i].hosts[k].consumer.Some?
    requires !ConsumerRefMatches(states[i].hosts[k].consumer.value, events[i].claim)
    ensures k in states[i + 1].hosts && states[i + 1].hosts[k] == states[i].hosts[k]
  {
    hide Step, VersionsInv;
    VersionsHold(states, events, i);
    WritesNeverSteal(states[i], events[i].claim, states[i + 1], k, states[i].hosts[k].consumer.value);
  }

  // ----- one host for each claim -----

  /** The claims and the namespaces whose policies accept each of them. */
  datatype Config = Config(claims: set<Claim>, namespaces: map<Claim, set<string>>)

  predicate Valid(cfg: Config) {
    && cfg.namespaces.Keys == cfg.claims
    && forall c, d | c in cfg.claims && d in cfg.claims && c.namespace == d.namespace && c.name == d.name :: c == d
  }

  predicate IsClaimRef(ref: ConsumerRef) {
    ref.kind == HOST_CLAIM_KIND && ref.group == METAL3_GROUP
  }

  predicate Holds(s: System, c: Claim, k: Key) {
    k in s.hosts && Held(s.hosts[k], c)
  }

  predicate Claimed(s: System, k: Key) {
    k in s.hosts && s.hosts[k].consumer.Some? && IsClaimRef(s.hosts[k].consumer.value)
  }

  /** The list shows the host as it is now. */
  predicate Shows(s: System, listed: Hosts, k: Key) {
    k in s.hosts && k in listed && listed[k] == s.hosts[k]
  }

  /** A host that may be chosen from the list, and whose write would succeed. */
  predicate CanBook(s: System, c: Claim, listed: Hosts, namespaces: set<string>, k: Key) {
    k in listed && IsChoice(listed, k, c, namespaces) && Succeeds(s, Pending(k, listed[k]))
  }

  /** The list shows the hosts that the claim holds as they are, or offers nothing that could be booked; everything else
      on it may be out of date. */
  predicate Harmless(s: System, c: Claim, listed: Hosts, namespaces: set<string>) {
    || (forall k | k in s.hosts && Holds(s, c, k) :: Shows(s, listed, k))
    || (forall k | k in listed :: !CanBook(s, c, listed, namespaces, k))
  }

  /** Policies and claims are stable and lists harmless; nobody else hands a host to a claim, and the labels of the
      hosts that claims hold stay the same. */
  predicate Stable(cfg: Config, s: System, e: Event)
    requires Valid(cfg)
  {
    match e
    case Choose(c, listed, namespaces, _) =>
      c in cfg.claims && namespaces == cfg.namespaces[c] && Harmless(s, c, listed, namespaces)
    case Change(k, h) =>
      && (h.consumer.Some? && IsClaimRef(h.consumer.value) ==> k in s.hosts && s.hosts[k].consumer == h.consumer)
      && (Claimed(s, k) ==> h.labels == s.hosts[k].labels)
    case _ => true
  }

  /** A claim holds hosts that are eligible for it, one at most, and if it is about to book a host no other. */
  predicate ClaimInv(cfg: Config, s: System, c: Claim)
    requires Valid(cfg) && c in cfg.claims
  {
    && (forall k | k in s.hosts && Holds(s, c, k) :: Eligible(k, s.hosts[k], c, cfg.namespaces[c]))
    && (forall k, x | k in s.hosts && x in s.hosts && Holds(s, c, k) && Holds(s, c, x) :: k == x)
    && (c in s.pending && Succeeds(s, s.pending[c]) ==>
          && Eligible(s.pending[c].key, s.pending[c].host, c, cfg.namespaces[c])
          && forall k | k in s.hosts && Holds(s, c, k) :: k == s.pending[c].key)
  }

  predicate SingleInv(cfg: Config, s: System)
    requires Valid(cfg)
  {
    s.pending.Keys <= cfg.claims && forall c | c in cfg.claims :: ClaimInv(cfg, s, c)
  }

  predicate Inv(cfg: Config, s: System)
    requires Valid(cfg)
  {
    VersionsInv(s) && SingleInv(cfg, s)
  }

  /** Whatever else is out of date, from a list that shows the host it holds a claim can book no other; in particular
      after a write whose outcome was lost, it books the same host again. */
  lemma HolderBooksAgain(cfg: Config, s: System, c: Claim, listed: Hosts, held: Key, k: Key)
    requires Valid(cfg) && Inv(cfg, s) && c in cfg.claims && Holds(s, c, held)
    requires Listable(s, listed) && Shows(s, listed, held)
    ensures CanBook(s, c, listed, cfg.namespaces[c], k) <==> k == held
  {
    hide Eligible;
    assert ClaimInv(cfg, s, c);
    assert HoldsEligible(listed, held, c, cfg.namespaces[c]);
  }

  /** A claim that holds a host has no other choice, in whatever order the current hosts are listed. */
  lemma HolderChoosesAgain(cfg: Config, s: System, c: Claim, held: Key, k: Key)
    requires Valid(cfg) && Inv(cfg, s) && c in cfg.claims && Holds(s, c, held)
    ensures IsChoice(s.hosts, k, c, cfg.namespaces[c]) <==> k == held
    ensures !NothingToChoose(s.hosts, c, cfg.namespaces[c])
  {
    assert HoldsEligible(s.hosts, held, c, cfg.namespaces[c]);
  }

  lemma ChoiceIsEligible(view: Hosts, k: Key, c: Claim, namespaces: set<string>)
    requires k in view && IsChoice(view, k, c, namespaces)
    ensures Eligible(k, view[k], c, namespaces)
  {
  }

  lemma ChoiceKeepsClaim(cfg: Config, s: System, e: Event, t: System, c: Claim)
    requires Valid(cfg) && Inv(cfg, s) && Step(s, e, t) && e.Choose? && Stable(cfg, s, e) && c in cfg.claims
    ensures ClaimInv(cfg, t, c)
  {
    hide Eligible, Held, VersionsInv, IsChoice;
    assert ClaimInv(cfg, s, c);
    assert t.hosts == s.hosts;
    if c == e.claim && Succeeds(s, Pending(e.key, e.listed[e.key])) {
      ChoiceIsEligible(e.listed, e.key, c, cfg.namespaces[c]);
      assert CanBook(s, c, e.listed, cfg.namespaces[c], e.key);
      forall held | held in s.hosts && Holds(s, c, held) ensures held == e.key {
        HolderBooksAgain(cfg, s, c, e.listed, held, e.key);
      }
    }
  }

  /** The claim whose write succeeds held no other host. */
  lemma WriteKeepsWriter(cfg: Config, s: System, e: Event, t: System)
    requires Valid(cfg) && Inv(cfg, s) && Step(s, e, t) && e.Write? && Succeeds(s, s.pending[e.claim])
    ensures ClaimInv(cfg, t, e.claim)
  {
    hide Eligible, VersionsInv;
    var (p, c) := (s.pending[e.claim], e.claim);
    assert ClaimInv(cfg, s, c);
    SameLabels(p.key, p.host, t.hosts[p.key], c, cfg.namespaces[c]);
    assert forall k | k in t.hosts && Holds(t, c, k) :: k == p.key;
  }

  /** The host written is not held by any other claim afterwards, and the others are as they were. */
  lemma WriteKeepsOthers(cfg: Config, s: System, e: Event, t: System, c: Claim)
    requires Valid(cfg) && Inv(cfg, s) && Step(s, e, t) && e.Write? && Succeeds(s, s.pending[e.claim])
    requires c in cfg.claims && c != e.claim
    ensures ClaimInv(cfg, t, c)
  {
    hide Eligible;
    var p := s.pending[e.claim];
    assert ClaimInv(cfg, s, c);
    assert !Held(t.hosts[p.key], c);
    assert forall k | k in t.hosts && Holds(t, c, k) :: k != p.key && Holds(s, c, k);
    if c in t.pending {
      assert PendingInv(s, c, s.pending[c]);
      assert Succeeds(t, t.pending[c]) ==> Succeeds(s, s.pending[c]);
    }
  }

  lemma RefusalKeepsClaim(cfg: Config, s: System, e: Event, t: System, c: Claim)
    requires Valid(cfg) && Inv(cfg, s) && Step(s, e, t) && e.Write? && !Succeeds(s, s.pending[e.claim])
    requires c in cfg.claims
    ensures ClaimInv(cfg, t, c)
  {
    hide Eligible, VersionsInv, Held;
    assert ClaimInv(cfg, s, c);
    assert t == s.(pending := s.pending - {e.claim});
  }

  lemma WriteKeepsClaim(cfg: Config, s: System, e: Event, t: System, c: Claim)
    requires Valid(cfg) && Inv(cfg, s) && Step(s, e, t) && e.Write? && c in cfg.claims
    ensures ClaimInv(cfg, t, c)
  {
    hide Inv, Succeeds, ClaimInv;
    if !Succeeds(s, s.pending[e.claim]) {
      RefusalKeepsClaim(cfg, s, e, t, c);
    } else if c == e.claim {
      WriteKeepsWriter(cfg, s, e, t);
    } else {
      WriteKeepsOthers(cfg, s, e, t, c);
    }
  }

  lemma SameLabels(k: Key, a: Host, b: Host, c: Claim, namespaces: set<string>)
    requires a.labels == b.labels
    ensures Eligible(k, a, c, namespaces) == Eligible(k, b, c, namespaces)
  {
  }

  lemma OutsideKeepsClaim(cfg: Config, s: System, e: Event, t: System, c: Claim)
    requires Valid(cfg) && Inv(cfg, s) && Step(s, e, t) && Stable(cfg, s, e) && !e.Choose? && !e.Write?
    requires c in cfg.claims
    ensures ClaimInv(cfg, t, c)
  {
    hide Selects, ValidSelector;
    assert ClaimInv(cfg, s, c);
    assert forall k | k in t.hosts && Holds(t, c, k) :: Holds(s, c, k) && t.hosts[k].labels == s.hosts[k].labels;
    if c in t.pending {
      assert PendingInv(s, c, s.pending[c]);
      assert Succeeds(t, t.pending[c]) ==> Succeeds(s, s.pending[c]);
    }
  }

  lemma StepKeepsInv(cfg: Config, s: System, e: Event, t: System)
    requires Valid(cfg) && Inv(cfg, s) && Step(s, e, t) && Stable(cfg, s, e)
    ensures Inv(cfg, t)
  {
    hide Step, ClaimInv, VersionsInv, Stable;
    StepKeepsVersions(s, e, t);
    assert t.pending.Keys <= cfg.claims by { PendingClaims(cfg, s, e, t); }
    forall c | c in cfg.claims ensures ClaimInv(cfg, t, c) {
      if e.Choose? {
        ChoiceKeepsClaim(cfg, s, e, t, c);
      } else if e.Write? {
        WriteKeepsClaim(cfg, s, e, t, c);
      } else {
        OutsideKeepsClaim(cfg, s, e, t, c);
      }
    }
  }

  lemma PendingClaims(cfg: Config, s: System, e: Event, t: System)
    requires Valid(cfg) && s.pending.Keys <= cfg.claims && Step(s, e, t) && Stable(cfg, s, e)
    ensures t.pending.Keys <= cfg.claims
  {
  }

  /** An execution in which no claim holds a host at first, and policies and labels are stable and lists harmless. */
  ghost predicate StableExecution(cfg: Config, states: seq<System>, events: seq<Event>)
    requires Valid(cfg)
  {
    && Execution(states, events)
    && (forall k | k in states[0].hosts :: !Claimed(states[0], k))
    && forall i | 0 <= i < |events| :: Stable(cfg, states[i], events[i])
  }

  lemma {:induction false} InvHolds(cfg: Config, states: seq<System>, events: seq<Event>, i: nat)
    requires Valid(cfg) && StableExecution(cfg, states, events) && i < |states|
    ensures Inv(cfg, states[i])
  {
    hide Step, Stable;
    if i > 0 {
      InvHolds(cfg, states, events, i - 1);
      StepKeepsInv(cfg, states[i - 1], events[i - 1], states[i]);
    }
  }

  /** With policies and labels that are stable and lists that are harmless, a claim never holds two hosts, and one that
      holds a host can only choose it again from the current hosts. */
  lemma ClaimsHoldOneHost(cfg: Config, states: seq<System>, events: seq<Event>, i: nat, c: Claim, held: Key, k: Key)
    requires Valid(cfg) && StableExecution(cfg, states, events) && i < |states|
    requires c in cfg.claims && Holds(states[i], c, held)
    ensures Holds(states[i], c, k) <==> k == held
    ensures IsChoice(states[i].hosts, k, c, cfg.namespaces[c]) <==> k == held
  {
    hide Step, Stable;
    InvHolds(cfg, states, events, i);
    HolderChoosesAgain(cfg, states[i], c, held, k);
  }

  // ----- harmful lists -----

  predicate HoldsTwo(s: System, c: Claim) {
    exists k, x | k in s.hosts && x in s.hosts :: k != x && Holds(s, c, k) && Holds(s, c, x)
  }

  /** The claim chooses from the list and writes at once, and then holds two hosts. */
  ghost predicate BooksSecond(s: System, c: Claim, listed: Hosts, namespaces: set<string>) {
    exists k, t, u :: Step(s, Choose(c, listed, namespaces, k), t) && Step(t, Write(c), u) && HoldsTwo(u, c)
  }

  /** Where claims hold one host at most, a list lets a claim book a second host if and only if it is not harmless. */
  lemma ListsBookSecondExactlyIfHarmful(cfg: Config, s: System, c: Claim, listed: Hosts)
    requires Valid(cfg) && Inv(cfg, s) && c in cfg.claims && Listable(s, listed)
    ensures BooksSecond(s, c, listed, cfg.namespaces[c]) <==> !Harmless(s, c, listed, cfg.namespaces[c])
  {
    var namespaces := cfg.namespaces[c];
    if k, t, u :| Step(s, Choose(c, listed, namespaces, k), t) && Step(t, Write(c), u) && HoldsTwo(u, c) {
      HarmlessBooksOne(cfg, s, c, listed, k, t, u);
    }
    if !Harmless(s, c, listed, namespaces) {
      var held :| held in s.hosts && Holds(s, c, held) && !Shows(s, listed, held);
      var k :| k in listed && CanBook(s, c, listed, namespaces, k);
      HarmfulBooksTwo(cfg, s, c, listed, held, k);
    }
  }

  lemma HarmlessBooksOne(cfg: Config, s: System, c: Claim, listed: Hosts, k: Key, t: System, u: System)
    requires Valid(cfg) && Inv(cfg, s) && c in cfg.claims
    requires Step(s, Choose(c, listed, cfg.namespaces[c], k), t) && Step(t, Write(c), u) && HoldsTwo(u, c)
    ensures !Harmless(s, c, listed, cfg.namespaces[c])
  {
    hide Step, Inv, ClaimInv, HoldsTwo;
    var (choose, write) := (Choose(c, listed, cfg.namespaces[c], k), Write(c));
    if Harmless(s, c, listed, cfg.namespaces[c]) {
      StepKeepsInv(cfg, s, choose, t);
      StepKeepsInv(cfg, t, write, u);
      HoldsOne(cfg, u, c);
    }
  }

  lemma HoldsOne(cfg: Config, s: System, c: Claim)
    requires Valid(cfg) && Inv(cfg, s) && c in cfg.claims
    ensures !HoldsTwo(s, c)
  {
    assert ClaimInv(cfg, s, c);
  }

  lemma HarmfulBooksTwo(cfg: Config, s: System, c: Claim, listed: Hosts, held: Key, k: Key)
    requires Valid(cfg) && Inv(cfg, s) && c in cfg.claims && Listable(s, listed)
    requires Holds(s, c, held) && !Shows(s, listed, held) && CanBook(s, c, listed, cfg.namespaces[c], k)
    ensures BooksSecond(s, c, listed, cfg.namespaces[c])
  {
    var p := Pending(k, listed[k]);
    var t := s.(pending := s.pending[c := p]);
    var u := Written(t, c, p);
    assert k != held && Holds(u, c, held) && Holds(u, c, k);
    assert Step(s, Choose(c, listed, cfg.namespaces[c], k), t) && Step(t, Write(c), u) && HoldsTwo(u, c);
  }

  /** Such lists can be met: whenever there are two hosts for a claim, it can book one from a list that is up to date,
      and then the other from one that misses its own host. */
  lemma StaleListsBookTwice(s: System, c: Claim, namespaces: set<string>, first: Key, second: Key)
    returns (states: seq<System>, events: seq<Event>)
    requires Init(s) && c.failureDomain == "" && first != second
    requires forall k | k in s.hosts :: !Held(s.hosts[k], c)
    requires IsAvailable(s.hosts, first, c, namespaces) && IsAvailable(s.hosts, second, c, namespaces)
    ensures |events| == 4 && Execution(states, events) && states[0] == s
    ensures Holds(states[|events|], c, first) && Holds(states[|events|], c, second)
  {
    var (p, q) := (Pending(first, s.hosts[first]), Pending(second, s.hosts[second]));
    var listed := map[second := s.hosts[second]];
    var s1 := s.(pending := map[c := p]);
    var s2 := Written(s1, c, p);
    var s3 := s2.(pending := s2.pending[c := q]);
    states := [s, s1, s2, s3, Written(s3, c, q)];
    events := [Choose(c, s.hosts, namespaces, first), Write(c), Choose(c, listed, namespaces, second), Write(c)];
    assert IsAvailable(listed, second, c, namespaces);
    assert Step(s, events[0], s1);
    assert Step(s1, events[1], s2);
    assert Step(s2, events[2], s3);
    assert Step(s3, events[3], states[4]);
    forall i | 0 <= i < |events| ensures Step(states[i], events[i], states[i + 1]) {
      assert i in {0, 1, 2, 3};
    }
  }
}
