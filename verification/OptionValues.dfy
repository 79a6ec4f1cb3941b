/** Go values, the JSON they turn into, and how the patch builder compares them
    (optionValueEqual in pkg/provisioner/ironic/clients/updateopts.go). */
module OptionValues {
  import opened HostTypes

  datatype Atom = Str(s: string) | Flag(b: bool) | Number(n: int)

  /** The element type of a container: `any`, or a concrete type, known by its name. */
  datatype ElemType = Any | Typed(name: string)

  /** What an `any` can hold: nothing, a scalar with its Go type, and containers, which can be nil. */
  datatype GoValue =
    | Nil
    | Scalar(goType: string, atom: Atom)
    | NilList(elemType: ElemType)
    | List(elemType: ElemType, items: seq<GoValue>)
    | NilMap(elemType: ElemType)
    | Map(elemType: ElemType, entries: map<string, GoValue>)

  datatype JSON = JNull | JAtom(atom: Atom) | JList(list: seq<JSON>) | JMap(fields: map<string, JSON>)

  /** What the encoder makes of a value. */
  function Encode(v: GoValue): JSON {
    match v
    case Nil => JNull
    case Scalar(_, atom) => JAtom(atom)
    case NilList(_) => JNull
    case List(_, items) => JList(seq(|items|, i requires 0 <= i < |items| => Encode(items[i])))
    case NilMap(_) => JNull
    case Map(_, entries) => JMap(map k | k in entries :: Encode(entries[k]))
  }

  /** The types that the JSON decoder chooses for scalars. */
  function WireType(atom: Atom): string {
    match atom
    case Str(_) => "string"
    case Flag(_) => "bool"
    case Number(_) => "float64"
  }

  /** The decoder. */
  function Decode(j: JSON): GoValue {
    match j
    case JNull => Nil
    case JAtom(atom) => Scalar(WireType(atom), atom)
    case JList(list) => List(Any, seq(|list|, i requires 0 <= i < |list| => Decode(list[i])))
    case JMap(fields) => Map(Any, map k | k in fields :: Decode(fields[k]))
  }

  /** The sequences and maps that reflection sees, where nil containers are empty. */
  function Elements(v: GoValue): seq<GoValue> {
    if v.List? then v.items else []
  }

  function Entries(v: GoValue): map<string, GoValue> {
    if v.Map? then v.entries else map[]
  }

  predicate IsList(v: GoValue) { v.List? || v.NilList? }
  predicate IsMap(v: GoValue) { v.Map? || v.NilMap? }

  predicate Generic(v: GoValue) {
    (IsList(v) || IsMap(v)) && v.elemType == Any
  }

  // ----- comparing -----

  // Each level of nesting swaps the roles of the two values: `forward` tells whether `a` is the current one.

  /** Whether the contents of both containers have to be compared. */
  predicate Opens(a: GoValue, b: GoValue, forward: bool) {
    && Generic(if forward then a else b)
    && ((IsList(a) && IsList(b) && |Elements(a)| == |Elements(b)|)
        || (IsMap(a) && IsMap(b) && |Entries(a).Keys| == |Entries(b).Keys|))
  }

  /** Equal: identical, types and nilness included, or a generic container and any container with equal contents. */
  predicate Same(a: GoValue, b: GoValue, forward: bool) {
    || a == b
    || (&& Opens(a, b, forward)
        && Entries(a).Keys == Entries(b).Keys
        && (forall i | 0 <= i < |Elements(a)| :: Same(Elements(a)[i], Elements(b)[i], !forward))
        && (forall k | k in Entries(a) :: Same(Entries(a)[k], Entries(b)[k], !forward)))
  }

  /** The elements that a comparison visits before the i-th one are equal, so that it gets there. */
  predicate SameUpTo(a: GoValue, b: GoValue, forward: bool, i: nat)
    requires i <= |Elements(a)| == |Elements(b)|
  {
    forall j | 0 <= j < i :: Same(Elements(a)[j], Elements(b)[j], !forward)
  }

  function Rest(order: seq<string>): seq<string> {
    if order == [] then [] else order[1..]
  }

  /** Visiting the keys of `order` first, one for each level of nesting, a generic container meets a null, whose type
      cannot be asked for its kind. */
  predicate ClashesIn(order: seq<string>, a: GoValue, b: GoValue, forward: bool)
    decreases a
  {
    && a != b
    && (|| (Generic(if forward then a else b) && (if forward then b else a) == Nil)
        || (&& Opens(a, b, forward)
            && (|| (exists i | 0 <= i < |Elements(a)| ::
                      && SameUpTo(a, b, forward, i)
                      && ClashesIn(Rest(order), Elements(a)[i], Elements(b)[i], !forward))
                || (&& order != [] && order[0] in Entries(a) && order[0] in Entries(b)
                    && ClashesIn(Rest(order), Entries(a)[order[0]], Entries(b)[order[0]], !forward)))))
  }

  ghost predicate Clashes(a: GoValue, b: GoValue, forward: bool) {
    exists order: seq<string> :: ClashesIn(order, a, b, forward)
  }

  /** There is a difference that is not a clash, and a comparison can get there. */
  predicate Differs(a: GoValue, b: GoValue, forward: bool) {
    && a != b
    && (if Generic(if forward then a else b) && (if forward then b else a) == Nil then false
        else if !Opens(a, b, forward) then true
        else
          || Entries(a).Keys != Entries(b).Keys
          || (exists i | 0 <= i < |Elements(a)| :: && SameUpTo(a, b, forward, i)
                                                  && Differs(Elements(a)[i], Elements(b)[i], !forward))
          || (exists k | k in Entries(a) && k in Entries(b) :: Differs(Entries(a)[k], Entries(b)[k], !forward)))
  }

  lemma {:induction false} SameFlips(a: GoValue, b: GoValue, forward: bool)
    ensures Same(a, b, forward) == Same(b, a, !forward)
  {
    if a != b && Opens(a, b, forward) {
      forall i | 0 <= i < |Elements(a)|
        ensures Same(Elements(a)[i], Elements(b)[i], !forward) == Same(Elements(b)[i], Elements(a)[i], forward)
      {
        SameFlips(Elements(a)[i], Elements(b)[i], !forward);
      }
      forall k | k in Entries(a) && k in Entries(b)
        ensures Same(Entries(a)[k], Entries(b)[k], !forward) == Same(Entries(b)[k], Entries(a)[k], forward)
      {
        SameFlips(Entries(a)[k], Entries(b)[k], !forward);
      }
    }
  }

  lemma SameUpToFlips(a: GoValue, b: GoValue, forward: bool, i: nat)
    requires i <= |Elements(a)| == |Elements(b)|
    ensures SameUpTo(a, b, forward, i) == SameUpTo(b, a, !forward, i)
  {
    forall j | 0 <= j < i
      ensures Same(Elements(a)[j], Elements(b)[j], !forward) == Same(Elements(b)[j], Elements(a)[j], forward)
    {
      SameFlips(Elements(a)[j], Elements(b)[j], !forward);
    }
  }

  lemma {:induction false} ClashFlips(order: seq<string>, a: GoValue, b: GoValue, forward: bool)
    ensures ClashesIn(order, a, b, forward) == ClashesIn(order, b, a, !forward)
    decreases a
  {
    hide Same, SameUpTo;
    var rest := Rest(order);
    if a != b && Opens(a, b, forward) {
      forall i | 0 <= i < |Elements(a)|
        ensures SameUpTo(a, b, forward, i) == SameUpTo(b, a, !forward, i)
        ensures ClashesIn(rest, Elements(a)[i], Elements(b)[i], !forward) ==
                ClashesIn(rest, Elements(b)[i], Elements(a)[i], forward)
      {
        SameUpToFlips(a, b, forward, i);
        ClashFlips(rest, Elements(a)[i], Elements(b)[i], !forward);
      }
      if order != [] && order[0] in Entries(a) && order[0] in Entries(b) {
        ClashFlips(rest, Entries(a)[order[0]], Entries(b)[order[0]], !forward);
      }
    }
  }

  lemma {:induction false} DifferenceFlips(a: GoValue, b: GoValue, forward: bool)
    ensures Differs(a, b, forward) == Differs(b, a, !forward)
  {
    hide Same, SameUpTo;
    if a != b && Opens(a, b, forward) {
      forall i | 0 <= i < |Elements(a)|
        ensures SameUpTo(a, b, forward, i) == SameUpTo(b, a, !forward, i)
        ensures Differs(Elements(a)[i], Elements(b)[i], !forward) == Differs(Elements(b)[i], Elements(a)[i], forward)
      {
        SameUpToFlips(a, b, forward, i);
        DifferenceFlips(Elements(a)[i], Elements(b)[i], !forward);
      }
      forall k | k in Entries(a) && k in Entries(b)
        ensures Differs(Entries(a)[k], Entries(b)[k], !forward) == Differs(Entries(b)[k], Entries(a)[k], forward)
      {
        DifferenceFlips(Entries(a)[k], Entries(b)[k], !forward);
      }
    }
  }

  lemma Flip(a: GoValue, b: GoValue)
    ensures Same(a, b, false) == Same(b, a, true)
    ensures forall order :: ClashesIn(order, a, b, false) == ClashesIn(order, b, a, true)
    ensures Differs(a, b, false) == Differs(b, a, true)
  {
    SameFlips(a, b, false);
    DifferenceFlips(a, b, false);
    forall order ensures ClashesIn(order, a, b, false) == ClashesIn(order, b, a, true) {
      ClashFlips(order, a, b, false);
    }
  }

  lemma SubsetOfSameSize<T>(a: set<T>, b: set<T>)
    requires a <= b && |a| == |b|
    ensures a == b
  {
    assert |b - a| == |b| - |a|;
  }

  datatype Outcome = Equal | Different | Panic

  /** optionValueEqual: the order in which it visits a map is arbitrary, but for the key that `order` puts first at
      each level; it panics for some order exactly if the values clash. `node` is one of the two values and only bounds
      the recursion. */
  method OptionValueEqual(current: GoValue, value: GoValue, order: seq<string>, ghost node: GoValue)
    returns (outcome: Outcome)
    requires node == current || node == value
    ensures outcome == Equal <==> Same(current, value, true)
    ensures outcome == Panic ==> Clashes(current, value, true)
    ensures outcome == Different ==> Differs(current, value, true)
    ensures ClashesIn(order, current, value, true) ==> outcome == Panic
    decreases node
  {
    if current == value {
      return Equal;
    }
    if Generic(current) && value == Nil {
      assert ClashesIn([], current, value, true);
      return Panic;
    }
    if IsList(current) && current.elemType == Any {
      if !IsList(value) || |Elements(value)| != |Elements(current)| {
        return Different;
      }
      outcome := CompareLists(current, value, order, node);
    } else if IsMap(current) && current.elemType == Any {
      if !IsMap(value) || |Entries(value).Keys| != |Entries(current).Keys| {
        return Different;
      }
      outcome := CompareMaps(current, value, order, node);
    } else {
      outcome := Different;
    }
  }

  /** What a comparison of lists comes to. */
  lemma ListsByElement(order: seq<string>, a: GoValue, b: GoValue)
    requires a != b && IsList(a) && Opens(a, b, true)
    ensures Same(a, b, true) <==> SameUpTo(a, b, true, |Elements(a)|)
    ensures ClashesIn(order, a, b, true) <==>
              exists i | 0 <= i < |Elements(a)| ::
                SameUpTo(a, b, true, i) && ClashesIn(Rest(order), Elements(a)[i], Elements(b)[i], false)
    ensures Differs(a, b, true) <==>
              exists i | 0 <= i < |Elements(a)| ::
                SameUpTo(a, b, true, i) && Differs(Elements(a)[i], Elements(b)[i], false)
  {
  }

  /** The elements are visited in their order. */
  method CompareLists(current: GoValue, value: GoValue, order: seq<string>, ghost node: GoValue)
    returns (outcome: Outcome)
    requires node == current || node == value
    requires current != value && IsList(current) && Opens(current, value, true)
    ensures outcome == Equal <==> Same(current, value, true)
    ensures outcome == Panic ==> Clashes(current, value, true)
    ensures outcome == Different ==> Differs(current, value, true)
    ensures ClashesIn(order, current, value, true) ==> outcome == Panic
    decreases node, 0
  {
    hide Same, ClashesIn, Differs;
    ListsByElement(order, current, value);
    for i := 0 to |Elements(current)|
      invariant SameUpTo(current, value, true, i)
      invariant forall j | 0 <= j < i :: !ClashesIn(Rest(order), Elements(current)[j], Elements(value)[j], false)
    {
      Flip(Elements(current)[i], Elements(value)[i]);
      outcome := OptionValueEqual(Elements(value)[i], Elements(current)[i], Rest(order), Elements(node)[i]);
      if outcome == Panic {
        ghost var inner: seq<string> :| ClashesIn(inner, Elements(value)[i], Elements(current)[i], true);
        assert Rest([""] + inner) == inner;
        ListsByElement([""] + inner, current, value);
      }
      if outcome != Equal {
        return;
      }
    }
    outcome := Equal;
  }

  method CompareMaps(current: GoValue, value: GoValue, order: seq<string>, ghost node: GoValue)
    returns (outcome: Outcome)
    requires node == current || node == value
    requires current != value && IsMap(current) && Opens(current, value, true)
    ensures outcome == Equal <==> Same(current, value, true)
    ensures outcome == Panic ==> Clashes(current, value, true)
    ensures outcome == Different ==> Differs(current, value, true)
    ensures ClashesIn(order, current, value, true) ==> outcome == Panic
    decreases node, 0
  {
    var todo := Entries(current).Keys;
    var next := if order == [] then None else Some(order[0]);
    while todo != {}
      invariant todo <= Entries(current).Keys
      invariant Entries(current).Keys - todo <= Entries(value).Keys
      invariant forall k | k in Entries(current) && k !in todo :: Same(Entries(current)[k], Entries(value)[k], false)
      invariant next.Some? ==> todo == Entries(current).Keys && order != [] && next.value == order[0]
      invariant next.None? ==> !ClashesIn(order, current, value, true)
      decreases todo
    {
      var k: string :| k in todo;
      if next.Some? && next.value in todo {
        k := next.value;
      }
      next := None;
      if k !in Entries(value) {
        return Different;
      }
      Flip(Entries(current)[k], Entries(value)[k]);
      outcome := OptionValueEqual(Entries(value)[k], Entries(current)[k], Rest(order), Entries(node)[k]);
      if outcome == Panic {
        ghost var inner: seq<string> :| ClashesIn(inner, Entries(value)[k], Entries(current)[k], true);
        assert Rest([k] + inner) == inner;
        assert ClashesIn([k] + inner, current, value, true);
      }
      if outcome != Equal {
        return;
      }
      todo := todo - {k};
    }
    SubsetOfSameSize(Entries(current).Keys, Entries(value).Keys);
    outcome := Equal;
  }

  // ----- what equality means -----

  lemma {:induction false} EncodeDecode(j: JSON)
    ensures Encode(Decode(j)) == j && Filled(Decode(j))
  {
    match j {
      case JList(list) =>
        forall i | 0 <= i < |list| ensures Encode(Decode(list[i])) == list[i] && Filled(Decode(list[i])) {
          EncodeDecode(list[i]);
        }
      case JMap(fields) =>
        forall k | k in fields ensures Encode(Decode(fields[k])) == fields[k] && Filled(Decode(fields[k])) {
          EncodeDecode(fields[k]);
        }
      case _ =>
    }
  }

  /** Nil containers written as empty ones. */
  function Fill(v: GoValue): GoValue {
    match v
    case NilList(t) => List(t, [])
    case NilMap(t) => Map(t, map[])
    case List(t, items) => List(t, seq(|items|, i requires 0 <= i < |items| => Fill(items[i])))
    case Map(t, entries) => Map(t, map k | k in entries :: Fill(entries[k]))
    case _ => v
  }

  lemma FilledList(v: GoValue)
    requires IsList(v)
    ensures Encode(Fill(v)) ==
            JList(seq(|Elements(v)|, i requires 0 <= i < |Elements(v)| => Encode(Fill(Elements(v)[i]))))
  {
  }

  lemma FilledMap(v: GoValue)
    requires IsMap(v)
    ensures Encode(Fill(v)) == JMap(map k | k in Entries(v) :: Encode(Fill(Entries(v)[k])))
  {
  }

  /** Equal values are the same JSON, at any depth, up to nil containers that count as empty ones. */
  lemma {:induction false} SameMeansSameJSON(a: GoValue, b: GoValue, forward: bool)
    requires Same(a, b, forward)
    ensures Encode(Fill(a)) == Encode(Fill(b))
  {
    hide Encode, Fill;
    if a == b {
    } else if IsList(a) {
      forall i | 0 <= i < |Elements(a)| ensures Encode(Fill(Elements(a)[i])) == Encode(Fill(Elements(b)[i])) {
        SameMeansSameJSON(Elements(a)[i], Elements(b)[i], !forward);
      }
      FilledList(a);
      FilledList(b);
    } else {
      forall k | k in Entries(a) ensures Encode(Fill(Entries(a)[k])) == Encode(Fill(Entries(b)[k])) {
        SameMeansSameJSON(Entries(a)[k], Entries(b)[k], !forward);
      }
      FilledMap(a);
      FilledMap(b);
    }
  }

  /** No nil container anywhere. */
  predicate Filled(v: GoValue) {
    match v
    case NilList(_) => false
    case NilMap(_) => false
    case List(_, items) => forall i | 0 <= i < |items| :: Filled(items[i])
    case Map(_, entries) => forall k | k in entries :: Filled(entries[k])
    case _ => true
  }

  lemma {:induction false} FilledIsFill(v: GoValue)
    requires Filled(v)
    ensures Fill(v) == v
  {
    match v {
      case List(_, items) =>
        forall i | 0 <= i < |items| ensures Fill(items[i]) == items[i] {
          FilledIsFill(items[i]);
        }
      case Map(_, entries) =>
        forall k | k in entries ensures Fill(entries[k]) == entries[k] {
          FilledIsFill(entries[k]);
        }
      case _ =>
    }
  }

  /** The exception is real: an empty list on the node hides a nil one, which would be written as null. */
  lemma EmptyHidesNil(t: string)
    ensures Same(List(Any, []), NilList(Typed(t)), true) && Encode(List(Any, [])) != Encode(NilList(Typed(t)))
  {
  }

  predicate NoNulls(v: GoValue) {
    match v
    case Nil => false
    case List(_, items) => forall i | 0 <= i < |items| :: NoNulls(items[i])
    case Map(_, entries) => forall k | k in entries :: NoNulls(entries[k])
    case _ => true
  }

  /** Comparing values without nulls never panics. */
  lemma {:induction false} NoNullsNoClash(order: seq<string>, a: GoValue, b: GoValue, forward: bool)
    requires NoNulls(a) && NoNulls(b)
    ensures !ClashesIn(order, a, b, forward)
    decreases a
  {
    forall i | a != b && Opens(a, b, forward) && 0 <= i < |Elements(a)|
      ensures !ClashesIn(Rest(order), Elements(a)[i], Elements(b)[i], !forward)
    {
      NoNullsNoClash(Rest(order), Elements(a)[i], Elements(b)[i], !forward);
    }
    if order != [] && Opens(a, b, forward) && order[0] in Entries(a) && order[0] in Entries(b) {
      NoNullsNoClash(Rest(order), Entries(a)[order[0]], Entries(b)[order[0]], !forward);
    }
  }

  /** Some do: a null that the node holds where a generic container is wanted. */
  lemma NullsClash(key: string)
    ensures var (current, value) := (Map(Any, map[key := Nil]), Map(Any, map[key := List(Any, [])]));
            ClashesIn([key], current, value, true) && !Same(current, value, true) && !Differs(current, value, true)
  {
    var (current, value) := (Map(Any, map[key := Nil]), Map(Any, map[key := List(Any, [])]));
    assert key in Entries(current) && key in Entries(value);
    assert Entries(current).Keys == {key} == Entries(value).Keys;
  }

  // ----- which wanted values can panic -----

  /** Not a container, and with the type that the decoder would give it. */
  predicate Bare(v: GoValue) {
    v.Nil? || (v.Scalar? && v.goType == WireType(v.atom))
  }

  /** A generic container directly inside the value; in a list only bare values come before it. */
  predicate Vulnerable(w: GoValue) {
    || (exists i | 0 <= i < |Elements(w)| :: Generic(Elements(w)[i]) && forall j | 0 <= j < i :: Bare(Elements(w)[j]))
    || (exists k | k in Entries(w) :: Generic(Entries(w)[k]))
  }

  /** One level down it is the wanted value whose type is asked for. */
  lemma InnerClashNeedsGeneric(order: seq<string>, j: JSON, w: GoValue)
    requires ClashesIn(order, Decode(j), w, false)
    ensures Generic(w)
  {
  }

  lemma EqualIsGenericOrBare(j: JSON, w: GoValue)
    requires Same(Decode(j), w, false)
    ensures Generic(w) || Bare(w)
  {
  }

  lemma {:induction false} FirstGeneric(items: seq<GoValue>, i: nat)
    requires i < |items| && Generic(items[i]) && forall j | 0 <= j < i :: Generic(items[j]) || Bare(items[j])
    ensures exists k | 0 <= k <= i :: Generic(items[k]) && forall j | 0 <= j < k :: Bare(items[j])
  {
    if j :| 0 <= j < i && Generic(items[j]) {
      FirstGeneric(items, j);
    }
  }

  lemma ElementClashMeansVulnerable(order: seq<string>, j: JSON, w: GoValue, i: nat)
    requires j.JList? && i < |j.list| == |Elements(w)| && SameUpTo(Decode(j), w, true, i)
    requires ClashesIn(order, Decode(j.list[i]), Elements(w)[i], false)
    ensures Vulnerable(w)
  {
    hide ClashesIn;
    InnerClashNeedsGeneric(order, j.list[i], Elements(w)[i]);
    forall x | 0 <= x < i ensures Generic(Elements(w)[x]) || Bare(Elements(w)[x]) {
      assert Elements(Decode(j))[x] == Decode(j.list[x]);
      EqualIsGenericOrBare(j.list[x], Elements(w)[x]);
    }
    FirstGeneric(Elements(w), i);
  }

  lemma EntryClashMeansVulnerable(order: seq<string>, j: JSON, w: GoValue, k: string)
    requires j.JMap? && k in j.fields && k in Entries(w) && ClashesIn(order, Decode(j.fields[k]), Entries(w)[k], false)
    ensures Vulnerable(w)
  {
    hide ClashesIn, Decode;
    InnerClashNeedsGeneric(order, j.fields[k], Entries(w)[k]);
  }

  lemma ClashMeansVulnerable(order: seq<string>, j: JSON, w: GoValue)
    requires w != Nil && ClashesIn(order, Decode(j), w, true)
    ensures Vulnerable(w)
  {
    hide Same, SameUpTo, Vulnerable, Bare;
    DecodeShape(j);
    var a := Decode(j);
    hide Decode;
    if j.JList? {
      var i :| 0 <= i < |Elements(a)| && |Elements(a)| == |Elements(w)| && SameUpTo(a, w, true, i)
               && ClashesIn(Rest(order), Elements(a)[i], Elements(w)[i], false);
      ElementClashMeansVulnerable(Rest(order), j, w, i);
    } else {
      EntryClashMeansVulnerable(Rest(order), j, w, order[0]);
    }
  }

  /** A value on the node that clashes with a vulnerable one, and the key to visit first. */
  lemma VulnerableMeansClash(w: GoValue) returns (order: seq<string>, j: JSON)
    requires Vulnerable(w)
    ensures ClashesIn(order, Decode(j), w, true)
  {
    if i :| 0 <= i < |Elements(w)| && Generic(Elements(w)[i]) && forall x | 0 <= x < i :: Bare(Elements(w)[x]) {
      order := [];
      j := JList(seq(|Elements(w)|, x requires 0 <= x < |Elements(w)| =>
                       if x < i then Encode(Elements(w)[x]) else JNull));
      assert forall x | 0 <= x < i :: Decode(Encode(Elements(w)[x])) == Elements(w)[x];
      assert SameUpTo(Decode(j), w, true, i) && ClashesIn([], Elements(Decode(j))[i], Elements(w)[i], false);
    } else {
      var k :| k in Entries(w) && Generic(Entries(w)[k]);
      order := [k];
      j := JMap(map x | x in Entries(w) :: JNull);
      assert Entries(Decode(j)).Keys == Entries(w).Keys;
      assert ClashesIn([], Entries(Decode(j))[k], Entries(w)[k], false);
    }
  }

  /** Some value on some node can make the comparison with a wanted value panic if and only if the wanted value is
      vulnerable. */
  lemma PanicsExactlyIfVulnerable(w: GoValue)
    requires w != Nil
    ensures (exists j: JSON :: Clashes(Decode(j), w, true)) <==> Vulnerable(w)
  {
    hide ClashesIn, Vulnerable, Decode;
    forall j: JSON | Clashes(Decode(j), w, true) ensures Vulnerable(w) {
      var order: seq<string> :| ClashesIn(order, Decode(j), w, true);
      ClashMeansVulnerable(order, j, w);
    }
    if Vulnerable(w) {
      var order, j := VulnerableMeansClash(w);
      assert Clashes(Decode(j), w, true);
    }
  }

  // ----- which nodes can make it panic -----

  predicate IsContainer(j: JSON) { j.JList? || j.JMap? }

  predicate HoldsContainer(j: JSON) {
    || (j.JList? && exists i | 0 <= i < |j.list| :: IsContainer(j.list[i]))
    || (j.JMap? && exists k | k in j.fields :: IsContainer(j.fields[k]))
  }

  /** Directly inside the value there is a null, or a container that holds another one. */
  predicate Provoking(j: JSON) {
    || (j.JList? && exists i | 0 <= i < |j.list| :: j.list[i].JNull? || HoldsContainer(j.list[i]))
    || (j.JMap? && exists k | k in j.fields :: j.fields[k].JNull? || HoldsContainer(j.fields[k]))
  }

  lemma InnermostNeedsContainer(order: seq<string>, j: JSON, w: GoValue)
    requires ClashesIn(order, Decode(j), w, true)
    ensures IsContainer(j)
  {
  }

  lemma InnerClashProvokes(order: seq<string>, j: JSON, w: GoValue)
    requires ClashesIn(order, Decode(j), w, false)
    ensures j.JNull? || HoldsContainer(j)
  {
    var a := Decode(j);
    DecodeShape(j);
    if !j.JNull? {
      if i :| 0 <= i < |Elements(a)| && |Elements(a)| == |Elements(w)|
              && ClashesIn(Rest(order), Elements(a)[i], Elements(w)[i], true)
      {
        InnermostNeedsContainer(Rest(order), j.list[i], Elements(w)[i]);
      } else {
        InnermostNeedsContainer(Rest(order), j.fields[order[0]], Entries(w)[order[0]]);
      }
    }
  }

  lemma ClashMeansProvoking(order: seq<string>, j: JSON, w: GoValue)
    requires w != Nil && ClashesIn(order, Decode(j), w, true)
    ensures Provoking(j)
  {
    var a := Decode(j);
    DecodeShape(j);
    if i :| 0 <= i < |Elements(a)| && |Elements(a)| == |Elements(w)|
            && ClashesIn(Rest(order), Elements(a)[i], Elements(w)[i], false)
    {
      InnerClashProvokes(Rest(order), j.list[i], Elements(w)[i]);
    } else {
      InnerClashProvokes(Rest(order), j.fields[order[0]], Entries(w)[order[0]]);
    }
  }

  /** A wanted value that clashes with a null or with a container that holds another. */
  lemma InnerProvokes(j: JSON) returns (order: seq<string>, w: GoValue)
    requires j.JNull? || HoldsContainer(j)
    ensures ClashesIn(order, Decode(j), w, false)
  {
    var a := Decode(j);
    DecodeShape(j);
    if j.JNull? {
      order, w := [], List(Any, []);
    } else if j.JList? {
      var i :| 0 <= i < |j.list| && IsContainer(j.list[i]);
      order, w := [], List(Any, a.items[i := Nil]);
      assert SameUpTo(a, w, false, i) && ClashesIn([], Elements(a)[i], Elements(w)[i], true);
    } else {
      var k :| k in j.fields && IsContainer(j.fields[k]);
      order, w := [k], Map(Any, a.entries[k := Nil]);
      assert Entries(w).Keys == Entries(a).Keys && ClashesIn([], Entries(a)[k], Entries(w)[k], true);
    }
  }

  lemma ProvokingMeansClash(j: JSON) returns (order: seq<string>, w: GoValue)
    requires Provoking(j)
    ensures w != Nil && ClashesIn(order, Decode(j), w, true)
  {
    var a := Decode(j);
    DecodeShape(j);
    if j.JList? {
      var i :| 0 <= i < |j.list| && (j.list[i].JNull? || HoldsContainer(j.list[i]));
      var inner, v := InnerProvokes(j.list[i]);
      order, w := [""] + inner, List(Any, a.items[i := v]);
      assert Rest(order) == inner && SameUpTo(a, w, true, i);
      assert ClashesIn(inner, Elements(a)[i], Elements(w)[i], false);
    } else {
      var k :| k in j.fields && (j.fields[k].JNull? || HoldsContainer(j.fields[k]));
      var inner, v := InnerProvokes(j.fields[k]);
      order, w := [k] + inner, Map(Any, a.entries[k := v]);
      assert Rest(order) == inner && Entries(w).Keys == Entries(a).Keys;
      assert ClashesIn(inner, Entries(a)[k], Entries(w)[k], false);
    }
  }

  /** Some wanted value can make the comparison with the value on a node panic if and only if that one is provoking. */
  lemma PanicsExactlyIfProvoking(j: JSON)
    ensures (exists w: GoValue :: w != Nil && Clashes(Decode(j), w, true)) <==> Provoking(j)
  {
    hide ClashesIn, Provoking, Decode;
    forall w: GoValue | w != Nil && Clashes(Decode(j), w, true) ensures Provoking(j) {
      var order: seq<string> :| ClashesIn(order, Decode(j), w, true);
      ClashMeansProvoking(order, j, w);
    }
    if Provoking(j) {
      var order, w := ProvokingMeansClash(j);
      assert Clashes(Decode(j), w, true);
    }
  }

  // ----- when a second run changes nothing -----

  /** Scalars have the decoder's types, no container is nil, and containers are generic except where `outer`, which
      alternates with the nesting, allows any type. */
  predicate Stable(v: GoValue, outer: bool) {
    match v
    case Nil => true
    case Scalar(goType, atom) => goType == WireType(atom)
    case NilList(_) => false
    case NilMap(_) => false
    case List(t, items) => (outer || t == Any) && forall i | 0 <= i < |items| :: Stable(items[i], !outer)
    case Map(t, entries) => (outer || t == Any) && forall k | k in entries :: Stable(entries[k], !outer)
  }

  lemma {:induction false} IdenticalIsStable(v: GoValue, outer: bool)
    requires Decode(Encode(v)) == v
    ensures Stable(v, outer)
  {
    match v {
      case List(t, items) =>
        var wire := Decode(Encode(v));
        forall i | 0 <= i < |items| ensures Stable(items[i], !outer) {
          assert wire.items[i] == items[i];
          IdenticalIsStable(items[i], !outer);
        }
      case Map(t, entries) =>
        var wire := Decode(Encode(v));
        forall k | k in entries ensures Stable(entries[k], !outer) {
          assert wire.entries[k] == entries[k];
          IdenticalIsStable(entries[k], !outer);
        }
      case _ =>
    }
  }

  /** A value is equal to what the node reads back after it was written exactly if it is stable: typed containers are
      recognised at every second level of nesting only. */
  lemma {:induction false} EqualToItsWireForm(v: GoValue, forward: bool)
    ensures Same(Decode(Encode(v)), v, forward) <==> Stable(v, forward)
  {
    var wire := Decode(Encode(v));
    if wire == v {
      IdenticalIsStable(v, forward);
    } else {
      forall i | 0 <= i < |Elements(v)|
        ensures i < |Elements(wire)|
        ensures Same(Elements(wire)[i], Elements(v)[i], !forward) <==> Stable(Elements(v)[i], !forward)
      {
        assert Elements(wire)[i] == Decode(Encode(Elements(v)[i]));
        EqualToItsWireForm(Elements(v)[i], !forward);
      }
      forall k | k in Entries(v)
        ensures k in Entries(wire)
        ensures Same(Entries(wire)[k], Entries(v)[k], !forward) <==> Stable(Entries(v)[k], !forward)
      {
        assert Entries(wire)[k] == Decode(Encode(Entries(v)[k]));
        EqualToItsWireForm(Entries(v)[k], !forward);
      }
      assert v.List? ==> |Elements(wire)| == |Elements(v)|;
      assert v.Map? ==> Entries(wire).Keys == Entries(v).Keys;
    }
  }

  // ----- which wanted values are recognised for what they are -----

  /** Writing a nil container as an empty one changes the JSON. */
  lemma {:induction false} FillShows(v: GoValue)
    requires !Filled(v)
    ensures Encode(Fill(v)) != Encode(v)
  {
    match v {
      case List(_, items) =>
        var i :| 0 <= i < |items| && !Filled(items[i]);
        FillShows(items[i]);
        assert Encode(v).list[i] == Encode(items[i]);
        assert Encode(Fill(v)).list[i] == Encode(Fill(items[i]));
      case Map(_, entries) =>
        var k :| k in entries && !Filled(entries[k]);
        FillShows(entries[k]);
        assert Encode(v).fields[k] == Encode(entries[k]);
        assert Encode(Fill(v)).fields[k] == Encode(Fill(entries[k]));
      case _ =>
    }
  }

  lemma FillShape(w: GoValue)
    ensures var f := Fill(w);
            && (IsList(f) <==> IsList(w)) && (IsMap(f) <==> IsMap(w)) && (Generic(f) <==> Generic(w))
            && |Elements(f)| == |Elements(w)| && Entries(f).Keys == Entries(w).Keys
            && (forall i | 0 <= i < |Elements(w)| :: Elements(f)[i] == Fill(Elements(w)[i]))
            && (forall k | k in Entries(w) :: Entries(f)[k] == Fill(Entries(w)[k]))
            && (!IsList(w) && !IsMap(w) ==> f == w)
  {
  }

  lemma DecodeShape(j: JSON)
    ensures var a := Decode(j);
            && (IsList(a) || IsMap(a) ==> Generic(a))
            && (if j.JList? then |Elements(a)| == |j.list| else Elements(a) == [])
            && (j.JList? ==> forall i | 0 <= i < |j.list| :: Elements(a)[i] == Decode(j.list[i]))
            && Entries(a).Keys == (if j.JMap? then j.fields.Keys else {})
            && (j.JMap? ==> forall k | k in j.fields :: Entries(a)[k] == Decode(j.fields[k]))
  {
  }

  /** The comparison does not tell nil containers from empty ones. */
  lemma {:induction false} FillIsSame(j: JSON, w: GoValue, forward: bool)
    ensures Same(Decode(j), w, forward) <==> Same(Decode(j), Fill(w), forward)
    decreases j
  {
    hide Decode, Fill;
    var a := Decode(j);
    DecodeShape(j);
    FillShape(w);
    if a == w {
      EncodeDecode(j);
      FilledIsFill(w);
    } else {
      forall i | 0 <= i < |Elements(a)| && |Elements(a)| == |Elements(w)|
        ensures Same(Elements(a)[i], Elements(w)[i], !forward) <==>
                Same(Elements(a)[i], Elements(Fill(w))[i], !forward)
      {
        FillIsSame(j.list[i], Elements(w)[i], !forward);
      }
      forall k | k in Entries(a) && k in Entries(w)
        ensures Same(Entries(a)[k], Entries(w)[k], !forward) <==> Same(Entries(a)[k], Entries(Fill(w))[k], !forward)
      {
        FillIsSame(j.fields[k], Entries(w)[k], !forward);
      }
    }
  }

  /** Either there is no nil container in the value, or the value is one that no node is found to have. */
  predicate Faithful(w: GoValue) {
    Filled(w) || !Stable(Fill(w), true)
  }

  /** Whatever a node holds, finding it equal to the wanted value means that it is the same JSON, if and only if the
      wanted value is faithful. */
  lemma EqualExactlyIfFaithful(w: GoValue)
    ensures (forall j: JSON :: Same(Decode(j), w, true) ==> Encode(w) == j) <==> Faithful(w)
  {
    var filled := Encode(Fill(w));
    forall j: JSON | Same(Decode(j), w, true) ensures j == filled && Stable(Fill(w), true) {
      SameMeansSameJSON(Decode(j), w, true);
      EncodeDecode(j);
      FilledIsFill(Decode(j));
      FillIsSame(j, w, true);
      EqualToItsWireForm(Fill(w), true);
    }
    if Filled(w) {
      FilledIsFill(w);
    } else if Stable(Fill(w), true) {
      EqualToItsWireForm(Fill(w), true);
      FillIsSame(filled, w, true);
      FillShows(w);
    }
  }
}
