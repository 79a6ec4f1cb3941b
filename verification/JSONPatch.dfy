/** Applying a JSON patch (RFC 6902) to a document, and what the patch builder's operations do to a node. */
module JSONPatch {
  import opened HostTypes
  import opened Strings
  import opened OptionValues
  import opened UpdateOpts

  // ----- JSON pointers (RFC 6901) -----

  /** "~1" stands for a slash and "~0" for a tilde; any other tilde is an error (section 4). */
  function Unescape(token: string): (r: Option<string>) {
    if token == "" then Some("")
    else if token[0] != '~' then
      var rest := Unescape(token[1..]);
      if rest.None? then None else Some([token[0]] + rest.value)
    else if |token| >= 2 && token[1] in {'0', '1'} then
      var rest := Unescape(token[2..]);
      if rest.None? then None else Some([if token[1] == '0' then '~' else '/'] + rest.value)
    else None
  }

  /** What a name has to be written as (section 3): the tilde as "~0", the slash as "~1". */
  function Escape(name: string): string {
    if name == "" then ""
    else (if name[0] == '~' then "~0" else if name[0] == '/' then "~1" else [name[0]]) + Escape(name[1..])
  }

  /** A name that was escaped reads as it was, and has no slash in it. */
  lemma {:induction false} EscapedNamesAreRead(name: string)
    ensures Unescape(Escape(name)) == Some(name) && '/' !in Escape(name)
  {
    if name != "" {
      EscapedNamesAreRead(name[1..]);
      var (rest, escaped) := (Escape(name[1..]), Escape(name));
      if name[0] in {'~', '/'} {
        assert escaped[2..] == rest && |escaped| >= 2;
      } else {
        assert escaped[1..] == rest;
      }
      assert name == [name[0]] + name[1..];
    }
  }

  function UnescapeAll(items: seq<string>): Option<seq<string>> {
    if items == [] then Some([])
    else
      var first := Unescape(items[0]);
      var rest := UnescapeAll(items[1..]);
      if first.None? || rest.None? then None else Some([first.value] + rest.value)
  }

  /** The keys that a pointer follows from the root of the document. */
  function Resolve(path: string): Option<seq<string>> {
    var items := Split(path, '/');
    if items[0] != "" then None else UnescapeAll(items[1..])
  }

  predicate PlainName(name: string) {
    '/' !in name && '~' !in name
  }

  lemma {:induction false} UnescapeShrinks(token: string)
    ensures Unescape(token).Some? ==> |Unescape(token).value| <= |token|
    ensures Unescape(token) == Some(token) <==> '~' !in token
    ensures Unescape(token).Some? && '~' in token ==> |Unescape(token).value| < |token|
  {
    if token != "" {
      if token[0] != '~' {
        UnescapeShrinks(token[1..]);
        assert token == [token[0]] + token[1..];
      } else if |token| >= 2 {
        UnescapeShrinks(token[2..]);
      }
    }
  }

  lemma {:induction false} SplitCount(s: string, separator: char)
    requires separator in s
    ensures |Split(s, separator)| >= 2
  {
    if s[0] != separator {
      SplitCount(s[1..], separator);
    }
  }

  lemma {:induction false} UnescapeAllKeepsCount(items: seq<string>)
    ensures UnescapeAll(items).Some? ==> |UnescapeAll(items).value| == |items|
  {
    if items != [] {
      UnescapeAllKeepsCount(items[1..]);
    }
  }

  lemma UnescapeOne(item: string)
    ensures UnescapeAll([item]) == if Unescape(item).None? then None else Some([Unescape(item).value])
  {
    assert [item][1..] == [] && UnescapeAll([]) == Some([]);
    if Unescape(item).Some? {
      assert [Unescape(item).value] + [] == [Unescape(item).value];
    }
  }

  /** The paths that the builder writes name the option they are for exactly if its name has no slash and no tilde:
      the builder does not escape them. */
  lemma PathsNamePlainOptions(section: string, name: string)
    requires PlainName(section)
    ensures Resolve(Path("/" + section, name)) == Some([section, name]) <==> PlainName(name)
    ensures Resolve(Path("", name)) == Some([name]) <==> PlainName(name)
  {
    var items := Split(name, '/');
    SplitAfter("", name, '/');
    assert Path("", name) == "" + ['/'] + name;
    SplitAfter(section, name, '/');
    SplitAfter("", section + ['/'] + name, '/');
    assert Path("/" + section, name) == "" + ['/'] + (section + ['/'] + name);
    assert ([""] + ([section] + items))[1..] == [section] + items && ([""] + items)[1..] == items;
    UnescapeShrinks(section);
    UnescapeShrinks(name);
    assert ([section] + items)[1..] == items;
    if '/' in name {
      SplitCount(name, '/');
      UnescapeAllKeepsCount(items);
      UnescapeAllKeepsCount([section] + items);
    } else {
      SplitPlain(name, '/');
      UnescapeOne(name);
      if Unescape(name).Some? {
        assert ([section] + [Unescape(name).value])[1] == Unescape(name).value;
        assert [section] + [name] == [section, name];
      }
    }
  }

  // ----- applying operations -----

  /** "add" (section 4.1): it also replaces, and the parent object has to exist. Arrays are not addressed here. */
  function AddAt(doc: JSON, keys: seq<string>, value: JSON): Option<JSON> {
    if keys == [] then Some(value)
    else if !doc.JMap? then None
    else if |keys| == 1 then Some(JMap(doc.fields[keys[0] := value]))
    else if keys[0] !in doc.fields then None
    else
      var inner := AddAt(doc.fields[keys[0]], keys[1..], value);
      if inner.None? then None else Some(JMap(doc.fields[keys[0] := inner.value]))
  }

  /** "remove" (section 4.2): the target has to exist. */
  function RemoveAt(doc: JSON, keys: seq<string>): Option<JSON> {
    if keys == [] || !doc.JMap? || keys[0] !in doc.fields then None
    else if |keys| == 1 then Some(JMap(doc.fields - {keys[0]}))
    else
      var inner := RemoveAt(doc.fields[keys[0]], keys[1..]);
      if inner.None? then None else Some(JMap(doc.fields[keys[0] := inner.value]))
  }

  /** An option cannot be added to a section that is missing or no object, nor removed where it is not (sections 4.1 and
      4.2); otherwise the one option is set or gone, and nothing else changes. */
  lemma SectionOperations(doc: JSON, section: string, name: string, value: JSON)
    ensures var keys := [section, name];
            var there := doc.JMap? && section in doc.fields && doc.fields[section].JMap?;
            && (AddAt(doc, keys, value).Some? <==> there) && (RemoveAt(doc, keys).Some? <==>
                there && name in doc.fields[section].fields)
            && (there ==> AddAt(doc, keys, value) ==
                          Some(JMap(doc.fields[section := JMap(doc.fields[section].fields[name := value])])))
            && (RemoveAt(doc, keys).Some? ==>
                  RemoveAt(doc, keys) == Some(JMap(doc.fields[section := JMap(doc.fields[section].fields - {name})])))
  {
    assert [section, name][1..] == [name];
  }

  function Apply(doc: JSON, operation: Operation): Option<JSON> {
    var keys := Resolve(operation.path);
    if keys.None? then None
    else
      match operation
      case Add(_, value) => AddAt(doc, keys.value, Encode(value))
      case Remove(_) => RemoveAt(doc, keys.value)
  }

  /** A patch is applied operation by operation, and as a whole or not at all. */
  function ApplyAll(doc: JSON, operations: seq<Operation>): Option<JSON>
    decreases |operations|
  {
    if operations == [] then Some(doc)
    else
      var next := Apply(doc, operations[0]);
      if next.None? then None else ApplyAll(next.value, operations[1..])
  }

  lemma {:induction false} ApplyAllConcat(doc: JSON, a: seq<Operation>, b: seq<Operation>)
    ensures ApplyAll(doc, a + b) ==
            if ApplyAll(doc, a).None? then None else ApplyAll(ApplyAll(doc, a).value, b)
    decreases |a|
  {
    if a == [] {
      assert a + b == b;
    } else {
      assert (a + b)[1..] == a[1..] + b;
      if Apply(doc, a[0]).Some? {
        ApplyAllConcat(Apply(doc, a[0]).value, a[1..], b);
      }
    }
  }

  // ----- what the builder's operations do -----

  /** The fields of a section after setting some options: those wanted are there with their values, those wanted nil
      are gone, and the others are as they were. */
  function Override(fields: Fields, settings: map<string, Desired>): Fields {
    map k | k in fields.Keys + settings.Keys && !(k in settings && Deref(settings[k]) == Nil) ::
      if k in settings then Encode(Deref(settings[k])) else fields[k]
  }

  function SetOne(fields: Fields, name: string, wanted: GoValue): Fields {
    if wanted == Nil then fields - {name} else fields[name := Encode(wanted)]
  }

  /** The values wanted are faithful, and their names need no escaping. */
  ghost predicate Orderly(settings: map<string, Desired>) {
    forall k | k in settings :: PlainName(k) && Faithful(Deref(settings[k]))
  }

  predicate HasSection(doc: JSON, section: string) {
    doc.JMap? && section in doc.fields && doc.fields[section].JMap?
  }

  function SetSection(doc: JSON, section: string, fields: Fields): JSON
    requires doc.JMap?
  {
    JMap(doc.fields[section := JMap(fields)])
  }

  /** An option found equal already has the JSON value it should get. */
  lemma EqualNeedsNoChange(j: JSON, wanted: GoValue)
    requires Same(Decode(j), wanted, true) && Faithful(wanted)
    ensures Encode(wanted) == j
  {
    hide Same, Decode, Encode, Faithful;
    EqualExactlyIfFaithful(wanted);
  }

  lemma AddSets(doc: JSON, section: string, name: string, value: JSON)
    requires HasSection(doc, section)
    ensures AddAt(doc, [section, name], value) ==
            Some(SetSection(doc, section, doc.fields[section].fields[name := value]))
  {
    assert [section, name][1..] == [name];
  }

  lemma RemoveUnsets(doc: JSON, section: string, name: string)
    requires HasSection(doc, section) && name in doc.fields[section].fields
    ensures RemoveAt(doc, [section, name]) == Some(SetSection(doc, section, doc.fields[section].fields - {name}))
  {
    assert [section, name][1..] == [name];
  }

  lemma ApplyOne(doc: JSON, operation: Operation)
    ensures ApplyAll(doc, [operation]) == Apply(doc, operation)
  {
    assert [operation][1..] == [];
  }

  /** The operations for one option set that option. */
  lemma OperationSets(doc: JSON, section: string, read: Fields, name: string, wanted: GoValue)
    requires HasSection(doc, section) && PlainName(section) && PlainName(name) && Faithful(wanted)
    requires name in read <==> name in doc.fields[section].fields
    requires name in read ==> read[name] == doc.fields[section].fields[name]
    ensures ApplyAll(doc, OperationFor(name, Read(read), wanted, Path("/" + section, name))) ==
            Some(SetSection(doc, section, SetOne(doc.fields[section].fields, name, wanted)))
  {
    var fields := doc.fields[section].fields;
    var path := Path("/" + section, name);
    PathsNamePlainOptions(section, name);
    AddSets(doc, section, name, Encode(wanted));
    ApplyOne(doc, Add(path, wanted));
    ApplyOne(doc, Remove(path));
    if wanted != Nil && name in read && Same(Decode(read[name]), wanted, true) {
      EqualNeedsNoChange(read[name], wanted);
      assert fields[name := Encode(wanted)] == fields;
      assert doc == SetSection(doc, section, fields);
    } else if wanted == Nil && name in read {
      RemoveUnsets(doc, section, name);
    } else if wanted == Nil {
      assert fields - {name} == fields;
      assert doc == SetSection(doc, section, fields);
    }
  }

  /** Setting options one after the other. */
  function SetInOrder(fields: Fields, settings: map<string, Desired>, order: seq<string>): Fields
    requires forall k | k in order :: k in settings
    decreases |order|
  {
    if order == [] then fields
    else SetInOrder(SetOne(fields, order[0], Deref(settings[order[0]])), settings, order[1..])
  }

  /** The section read before the patch was built and the section now agree on the options in `order`. */
  ghost predicate Agree(read: Fields, fields: Fields, order: seq<string>) {
    forall k | k in order :: (k in read <==> k in fields) && (k in read ==> read[k] == fields[k])
  }

  lemma SectionTwice(doc: JSON, section: string, a: Fields, b: Fields)
    requires doc.JMap?
    ensures SetSection(SetSection(doc, section, a), section, b) == SetSection(doc, section, b)
    ensures HasSection(SetSection(doc, section, a), section) && SetSection(doc, section, a).fields[section].fields == a
  {
  }

  lemma SectionAgain(doc: JSON, section: string)
    requires HasSection(doc, section)
    ensures SetSection(doc, section, doc.fields[section].fields) == doc
  {
  }

  lemma {:induction false} PlanSets(doc: JSON, section: string, read: Fields, settings: map<string, Desired>,
                                    order: seq<string>)
    requires HasSection(doc, section) && PlainName(section) && Orderly(settings)
    requires Distinct(order) && (forall k | k in order :: k in settings)
    requires Agree(read, doc.fields[section].fields, order)
    ensures ApplyAll(doc, Plan(order, Read(read), settings, "/" + section)) ==
            Some(SetSection(doc, section, SetInOrder(doc.fields[section].fields, settings, order)))
    decreases |order|
  {
    hide SetSection, Faithful;
    var fields := doc.fields[section].fields;
    if order == [] {
      SectionAgain(doc, section);
    } else {
      var (name, rest) := (order[0], order[1..]);
      var wanted := Deref(settings[name]);
      OperationSets(doc, section, read, name, wanted);
      var set_ := SetOne(fields, name, wanted);
      SectionTwice(doc, section, set_, SetInOrder(set_, settings, rest));
      assert forall k | k in rest :: k in order && k != name;
      PlanSets(SetSection(doc, section, set_), section, read, settings, rest);
      ApplyAllConcat(doc, OperationFor(name, Read(read), wanted, Path("/" + section, name)),
                     Plan(rest, Read(read), settings, "/" + section));
    }
  }

  /** An option that is still to be set ends up as wanted, and any other as it was. */
  lemma {:induction false} SetInOrderAt(fields: Fields, settings: map<string, Desired>, order: seq<string>, k: string)
    requires Distinct(order) && (forall x | x in order :: x in settings)
    ensures var after := SetInOrder(fields, settings, order);
            if k in order then
              (k in after <==> Deref(settings[k]) != Nil) && (k in after ==> after[k] == Encode(Deref(settings[k])))
            else (k in after <==> k in fields) && (k in after ==> after[k] == fields[k])
    decreases |order|
  {
    if order != [] {
      assert order[0] !in order[1..];
      SetInOrderAt(SetOne(fields, order[0], Deref(settings[order[0]])), settings, order[1..], k);
    }
  }

  lemma OrderDoesNotMatter(fields: Fields, settings: map<string, Desired>, order: seq<string>)
    requires Visits(order, settings)
    ensures SetInOrder(fields, settings, order) == Override(fields, settings)
  {
    var (after, expected) := (SetInOrder(fields, settings, order), Override(fields, settings));
    forall k: string ensures (k in after <==> k in expected) && (k in after ==> after[k] == expected[k]) {
      SetInOrderAt(fields, settings, order, k);
    }
  }

  /** Whatever the order in which the options are visited, the patch applies and sets exactly the wanted ones: those
      wanted nil are removed and every other key of the section, and every other section, is left alone. */
  lemma PatchSetsExactlyTheOptions(doc: JSON, section: string, read: Fields, settings: map<string, Desired>,
                                   order: seq<string>)
    requires HasSection(doc, section) && PlainName(section) && Orderly(settings) && Visits(order, settings)
    requires Agree(read, doc.fields[section].fields, order)
    ensures ApplyAll(doc, Plan(order, Read(read), settings, "/" + section)) ==
            Some(SetSection(doc, section, Override(doc.fields[section].fields, settings)))
  {
    PlanSets(doc, section, read, settings, order);
    OrderDoesNotMatter(doc.fields[section].fields, settings, order);
  }

  // ----- when the patch is wrong -----

  /** On this document, the patch that was built from it sets exactly the options. */
  ghost predicate SetsExactly(doc: JSON, section: string, settings: map<string, Desired>, order: seq<string>)
    requires HasSection(doc, section) && Visits(order, settings)
  {
    var fields := doc.fields[section].fields;
    ApplyAll(doc, Plan(order, Read(fields), settings, "/" + section)) ==
    Some(SetSection(doc, section, Override(fields, settings)))
  }

  lemma {:induction false} SplitHead(s: string, separator: char)
    ensures var head := Split(s, separator)[0];
            |head| <= |s| && (separator in s ==> |head| < |s|) && (separator !in s ==> head == s)
  {
    if s != "" {
      SplitHead(s[1..], separator);
      assert s == [s[0]] + s[1..];
    }
  }

  lemma UnescapeAllHead(items: seq<string>)
    requires items != [] && UnescapeAll(items).Some?
    ensures UnescapeAll(items).value != [] && Unescape(items[0]) == Some(UnescapeAll(items).value[0])
  {
  }

  /** The operation for an option works on one key of the section: its name if that is plain, else a shorter one. */
  lemma WorkedKey(section: string, name: string) returns (key: string)
    requires PlainName(section) && Resolve(Path("/" + section, name)).Some?
    ensures var keys := Resolve(Path("/" + section, name)).value;
            |keys| >= 2 && keys[0] == section && keys[1] == key
    ensures if PlainName(name) then key == name else |key| < |name|
  {
    var items := Split(name, '/');
    SplitAfter(section, name, '/');
    SplitAfter("", section + ['/'] + name, '/');
    assert Path("/" + section, name) == "" + ['/'] + (section + ['/'] + name);
    assert ([""] + ([section] + items))[1..] == [section] + items && ([section] + items)[1..] == items;
    UnescapeShrinks(section);
    UnescapeAllHead([section] + items);
    UnescapeAllHead(items);
    SplitHead(name, '/');
    UnescapeShrinks(items[0]);
    key := UnescapeAll(items).value[0];
  }

  /** The section has the same at a key, if anything. */
  predicate SameAt(a: JSON, b: JSON, section: string, key: string) {
    && HasSection(a, section) && HasSection(b, section)
    && var (f, g) := (a.fields[section].fields, b.fields[section].fields);
       (key in f <==> key in g) && (key in f ==> f[key] == g[key])
  }

  lemma ApplyKeeps(doc: JSON, operation: Operation, section: string, key: string)
    requires HasSection(doc, section) && Apply(doc, operation).Some?
    requires var keys := Resolve(operation.path).value; |keys| >= 2 && keys[0] == section && keys[1] != key
    ensures SameAt(doc, Apply(doc, operation).value, section, key)
  {
    var keys := Resolve(operation.path).value;
    var inner := doc.fields[section];
    if operation.Add? {
      assert AddAt(inner, keys[1..], Encode(operation.value)).Some?;
    } else {
      assert RemoveAt(inner, keys[1..]).Some?;
    }
  }

  /** Nothing is done for the option, or it is done at another key. */
  ghost predicate Elsewhere(section: string, current: map<string, GoValue>, wanted: GoValue, name: string,
                            key: string) {
    var path := Path("/" + section, name);
    || OperationFor(name, current, wanted, path) == []
    || (Resolve(path).Some? ==>
          var keys := Resolve(path).value; |keys| >= 2 && keys[0] == section && keys[1] != key)
  }

  lemma {:induction false} PlanKeeps(doc: JSON, section: string, current: map<string, GoValue>,
                                     settings: map<string, Desired>, order: seq<string>, key: string)
    requires HasSection(doc, section) && (forall k | k in order :: k in settings)
    requires forall k | k in order :: Elsewhere(section, current, Deref(settings[k]), k, key)
    requires ApplyAll(doc, Plan(order, current, settings, "/" + section)).Some?
    ensures SameAt(doc, ApplyAll(doc, Plan(order, current, settings, "/" + section)).value, section, key)
    decreases |order|
  {
    if order != [] {
      var operations := OperationFor(order[0], current, Deref(settings[order[0]]), Path("/" + section, order[0]));
      var rest := Plan(order[1..], current, settings, "/" + section);
      assert Elsewhere(section, current, Deref(settings[order[0]]), order[0], key);
      assert forall k | k in order[1..] :: k in order;
      ApplyAllConcat(doc, operations, rest);
      if operations == [] {
        PlanKeeps(doc, section, current, settings, order[1..], key);
      } else {
        ApplyOne(doc, operations[0]);
        assert operations == [operations[0]];
        ApplyKeeps(doc, operations[0], section, key);
        PlanKeeps(Apply(doc, operations[0]).value, section, current, settings, order[1..], key);
      }
    }
  }

  lemma {:induction false} SomeOrder(settings: map<string, Desired>) returns (order: seq<string>)
    ensures Visits(order, settings)
    decreases settings.Keys
  {
    order := [];
    if settings.Keys != {} {
      var k :| k in settings;
      assert (settings - {k}).Keys < settings.Keys;
      var rest := SomeOrder(settings - {k});
      order := [k] + rest;
      assert k !in rest;
    }
  }

  /** A document on which the value at a key stays what it is, although it should change. */
  lemma WrongAt(section: string, settings: map<string, Desired>, key: string, fields: Fields)
    requires PlainName(section) && key in settings
    requires forall k | k in settings :: Elsewhere(section, Read(fields), Deref(settings[k]), k, key)
    requires var wanted := Deref(settings[key]);
             if wanted == Nil then key in fields else key !in fields || fields[key] != Encode(wanted)
    ensures exists doc: JSON, order: seq<string> ::
              HasSection(doc, section) && Visits(order, settings) && !SetsExactly(doc, section, settings, order)
  {
    var doc := JMap(map[section := JMap(fields)]);
    var order := SomeOrder(settings);
    if SetsExactly(doc, section, settings, order) {
      PlanKeeps(doc, section, Read(fields), settings, order, key);
    }
  }

  lemma {:induction false} LongestOdd(settings: map<string, Desired>, name: string) returns (longest: string)
    requires name in settings && !PlainName(name)
    ensures longest in settings && !PlainName(longest)
    ensures forall k | k in settings && !PlainName(k) :: |k| <= |longest|
    decreases settings.Keys
  {
    var others := settings - {name};
    assert others.Keys < settings.Keys;
    longest := name;
    if k :| k in others && !PlainName(k) {
      var other := LongestOdd(others, k);
      longest := if |other| > |name| then other else name;
    }
  }

  lemma OddNameIsWrong(section: string, settings: map<string, Desired>, name: string)
    requires PlainName(section) && name in settings && !PlainName(name)
    ensures exists doc: JSON, order: seq<string> ::
              HasSection(doc, section) && Visits(order, settings) && !SetsExactly(doc, section, settings, order)
  {
    var key := LongestOdd(settings, name);
    var fields: Fields := if Deref(settings[key]) == Nil then map[key := JNull] else map[];
    forall k | k in settings ensures Elsewhere(section, Read(fields), Deref(settings[k]), k, key) {
      if Resolve(Path("/" + section, k)).Some? {
        var worked := WorkedKey(section, k);
      }
    }
    WrongAt(section, settings, key, fields);
  }

  lemma UnfaithfulValueIsWrong(section: string, settings: map<string, Desired>, name: string)
    requires PlainName(section) && (forall k | k in settings :: PlainName(k))
    requires name in settings && !Faithful(Deref(settings[name]))
    ensures exists doc: JSON, order: seq<string> ::
              HasSection(doc, section) && Visits(order, settings) && !SetsExactly(doc, section, settings, order)
  {
    var wanted := Deref(settings[name]);
    EqualExactlyIfFaithful(wanted);
    var j: JSON :| Same(Decode(j), wanted, true) && Encode(wanted) != j;
    var fields: Fields := map[name := j];
    forall k | k in settings ensures Elsewhere(section, Read(fields), Deref(settings[k]), k, name) {
      if k != name && Resolve(Path("/" + section, k)).Some? {
        var worked := WorkedKey(section, k);
      }
    }
    WrongAt(section, settings, name, fields);
  }

  /** The patch sets exactly the options, on every node and in every order, if and only if every name is plain and every
      value faithful. */
  lemma PatchIsExactIfOrderly(section: string, settings: map<string, Desired>)
    requires PlainName(section)
    ensures (forall doc: JSON, order: seq<string> | HasSection(doc, section) && Visits(order, settings) ::
               SetsExactly(doc, section, settings, order)) <==> Orderly(settings)
  {
    hide SetsExactly, Faithful, PlainName;
    if Orderly(settings) {
      forall doc: JSON, order: seq<string> | HasSection(doc, section) && Visits(order, settings)
        ensures SetsExactly(doc, section, settings, order)
      {
        OrderlyIsExact(doc, section, settings, order);
      }
    } else if k :| k in settings && !PlainName(k) {
      OddNameIsWrong(section, settings, k);
    } else {
      var k :| k in settings && !Faithful(Deref(settings[k]));
      UnfaithfulValueIsWrong(section, settings, k);
    }
  }

  lemma OrderlyIsExact(doc: JSON, section: string, settings: map<string, Desired>, order: seq<string>)
    requires PlainName(section) && HasSection(doc, section) && Visits(order, settings) && Orderly(settings)
    ensures SetsExactly(doc, section, settings, order)
  {
    PatchSetsExactlyTheOptions(doc, section, doc.fields[section].fields, settings, order);
  }

  // ----- a second run -----

  lemma {:induction false} PlanIsEmpty(order: seq<string>, current: map<string, GoValue>,
                                       settings: map<string, Desired>, base: string)
    requires forall k | k in order :: k in settings
    ensures Plan(order, current, settings, base) == [] <==>
            forall k | k in order :: OperationFor(k, current, Deref(settings[k]), Path(base, k)) == []
  {
    if order != [] {
      PlanIsEmpty(order[1..], current, settings, base);
      assert forall k :: k in order <==> k == order[0] || k in order[1..];
    }
  }

  /** Once the options are set, building the patch again gives no operation exactly if every value wanted is stable. */
  lemma SecondRunIsEmpty(fields: Fields, settings: map<string, Desired>, order: seq<string>, base: string)
    requires Visits(order, settings)
    ensures Plan(order, Read(Override(fields, settings)), settings, base) == [] <==>
            forall k | k in settings :: Stable(Deref(settings[k]), true)
  {
    var current := Read(Override(fields, settings));
    PlanIsEmpty(order, current, settings, base);
    forall k | k in settings
      ensures OperationFor(k, current, Deref(settings[k]), Path(base, k)) == [] <==> Stable(Deref(settings[k]), true)
    {
      EqualToItsWireForm(Deref(settings[k]), true);
    }
  }
}
