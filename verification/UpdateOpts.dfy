/** Building the JSON patch that brings the options of a node to their desired values
    (pkg/provisioner/ironic/clients/updateopts.go), and applying it as RFC 6902 says. */
module UpdateOpts {
  import opened OptionValues

  /** A desired value: a plain one, or a pointer. */
  datatype Desired = Plain(value: GoValue) | NilPointer | PointerTo(value: GoValue)

  /** deref */
  function Deref(d: Desired): GoValue {
    if d.NilPointer? then Nil else d.value
  }

  datatype Operation = Add(path: string, value: GoValue) | Remove(path: string)

  type Fields = map<string, JSON>

  /** A section of the node, as it was read from Ironic. */
  function Read(fields: Fields): map<string, GoValue> {
    map k | k in fields :: Decode(fields[k])
  }

  /** getUpdateOperation, for a comparison that does not panic. */
  function OperationFor(name: string, current: map<string, GoValue>, wanted: GoValue, path: string): seq<Operation> {
    if wanted != Nil then
      if name in current && Same(current[name], wanted, true) then [] else [Add(path, wanted)]
    else if name in current then [Remove(path)]
    else []
  }

  function Path(basepath: string, option: string): string {
    basepath + "/" + option
  }

  /** The operations for the options of a section, visited in some order. */
  function Plan(order: seq<string>, current: map<string, GoValue>, settings: map<string, Desired>,
                basepath: string): seq<Operation>
    requires forall k | k in order :: k in settings
  {
    if order == [] then []
    else
      OperationFor(order[0], current, Deref(settings[order[0]]), Path(basepath, order[0])) +
      Plan(order[1..], current, settings, basepath)
  }

  predicate Distinct(order: seq<string>) {
    forall i, j | 0 <= i < j < |order| :: order[i] != order[j]
  }

  /** Comparing an option with its desired value can panic; an option to be removed is not compared. */
  ghost predicate MayPanic(name: string, current: map<string, GoValue>, desired: Desired) {
    name in current && Deref(desired) != Nil && Clashes(current[name], Deref(desired), true)
  }

  /** It does if the keys of `order` are visited first. */
  predicate Panics(name: string, current: map<string, GoValue>, desired: Desired, order: seq<string>) {
    name in current && Deref(desired) != Nil && ClashesIn(order, current[name], Deref(desired), true)
  }

  /** An order in which all the settings are visited once. */
  ghost predicate Visits(order: seq<string>, settings: map<string, Desired>) {
    Distinct(order) && forall k :: k in order <==> k in settings
  }

  lemma {:induction false} PlanAppend(order: seq<string>, name: string, current: map<string, GoValue>,
                                      settings: map<string, Desired>, basepath: string)
    requires (forall k | k in order :: k in settings) && name in settings
    ensures Plan(order + [name], current, settings, basepath) ==
            Plan(order, current, settings, basepath) +
            OperationFor(name, current, Deref(settings[name]), Path(basepath, name))
  {
    if order == [] {
      assert [] + [name] == [name];
      assert Plan([name], current, settings, basepath) ==
             OperationFor(name, current, Deref(settings[name]), Path(basepath, name)) +
               Plan([], current, settings, basepath);
    } else {
      assert (order + [name])[1..] == order[1..] + [name];
      PlanAppend(order[1..], name, current, settings, basepath);
    }
  }

  function OrderFor(orders: map<string, seq<string>>, name: string): seq<string> {
    if name in orders then orders[name] else []
  }

  class NodeUpdater {
    var updates: seq<Operation>

    constructor ()
      ensures updates == []
    {
      updates := [];
    }

    method GetUpdateOperation(name: string, current: map<string, GoValue>, desired: Desired, path: string,
                              order: seq<string>)
      returns (operations: seq<Operation>, panicked: bool)
      ensures panicked ==> MayPanic(name, current, desired)
      ensures Panics(name, current, desired, order) ==> panicked
      ensures !panicked ==> operations == OperationFor(name, current, Deref(desired), path)
    {
      var wanted := Deref(desired);
      operations, panicked := [], false;
      if wanted != Nil {
        if name in current {
          var outcome := OptionValueEqual(current[name], wanted, order, wanted);
          if outcome == Panic {
            return [], true;
          }
          if outcome == Equal {
            return;
          }
        }
        operations := [Add(path, wanted)];
      } else if name in current {
        operations := [Remove(path)];
      }
    }

    /** Visits the options in an arbitrary order; `orders` says which keys inside an option to visit first. A panic ends
        the loop, and nothing is sent. */
    method SetSectionUpdateOpts(current: map<string, GoValue>, settings: map<string, Desired>, basepath: string,
                                orders: map<string, seq<string>>)
      returns (panicked: bool, ghost order: seq<string>)
      modifies this
      ensures panicked ==> exists k :: k in settings && MayPanic(k, current, settings[k])
      ensures (exists k :: k in settings && Panics(k, current, settings[k], OrderFor(orders, k))) ==> panicked
      ensures !panicked ==>
                Visits(order, settings) && updates == old(updates) + Plan(order, current, settings, basepath)
    {
      order, panicked := [], false;
      var todo := settings.Keys;
      while todo != {}
        invariant todo <= settings.Keys && Distinct(order)
        invariant forall k :: k in order <==> k in settings && k !in todo
        invariant forall k | k in order :: !Panics(k, current, settings[k], OrderFor(orders, k))
        invariant updates == old(updates) + Plan(order, current, settings, basepath)
        decreases todo
      {
        var name :| name in todo;
        var operations;
        operations, panicked :=
          GetUpdateOperation(name, current, settings[name], Path(basepath, name), OrderFor(orders, name));
        if panicked {
          return;
        }
        updates := updates + operations;
        PlanAppend(order, name, current, settings, basepath);
        order := order + [name];
        todo := todo - {name};
      }
    }

    method SetTopLevelOpt(name: string, desired: Desired, current: GoValue, inner: seq<string>)
      returns (panicked: bool)
      modifies this
      ensures panicked ==> MayPanic(name, map[name := current], desired)
      ensures Panics(name, map[name := current], desired, inner) ==> panicked
      ensures !panicked ==>
                updates == old(updates) + OperationFor(name, map[name := current], Deref(desired), Path("", name))
    {
      var settings := map[name := desired];
      ghost var order;
      panicked, order := SetSectionUpdateOpts(map[name := current], settings, "", map[name := inner]);
      if Panics(name, map[name := current], desired, inner) {
        assert name in settings && OrderFor(map[name := inner], name) == inner;
      }
      if !panicked {
        assert name in order && |order| == 1;
        assert order == [name];
        PlanAppend([], name, map[name := current], settings, "");
        assert [] + [name] == [name];
      }
    }
  }

  // ----- settings that can panic -----

  predicate AnyVulnerable(settings: map<string, Desired>) {
    exists k | k in settings :: Vulnerable(Deref(settings[k]))
  }

  lemma SafeSettingsNeverPanic(fields: Fields, settings: map<string, Desired>, name: string)
    requires name in settings && MayPanic(name, Read(fields), settings[name])
    ensures AnyVulnerable(settings)
  {
    hide Vulnerable, Clashes, Decode;
    PanicsExactlyIfVulnerable(Deref(settings[name]));
    assert Clashes(Decode(fields[name]), Deref(settings[name]), true);
    assert Vulnerable(Deref(settings[name]));
  }

  /** There is a section on which building the patch panics, for some order of visiting, if and only if some desired
      value is vulnerable: a caller can tell from the settings alone. */
  lemma SectionPanicsExactlyIfVulnerable(settings: map<string, Desired>)
    ensures (exists fields: Fields, k: string :: k in settings && MayPanic(k, Read(fields), settings[k])) <==>
            AnyVulnerable(settings)
  {
    if fields: Fields, k: string :| k in settings && MayPanic(k, Read(fields), settings[k]) {
      SafeSettingsNeverPanic(fields, settings, k);
    }
    if k :| k in settings && Vulnerable(Deref(settings[k])) {
      var order, j := VulnerableMeansClash(Deref(settings[k]));
      var fields: Fields := map[k := j];
      assert Read(fields)[k] == Decode(j);
      assert Clashes(Decode(j), Deref(settings[k]), true);
      assert MayPanic(k, Read(fields), settings[k]);
    }
  }
}
