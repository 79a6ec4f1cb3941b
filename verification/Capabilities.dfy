/** Rewriting the boot mode in a node's capabilities string (pkg/provisioner/ironic/capabilities.go). */
module Capabilities {
  import opened HostTypes
  import opened Strings

  const BOOT_MODE := "boot_mode:"
  const SECURE_BOOT := "secure_boot:"

  /** The table of boot modes; the empty mode is not in it and reads as the empty string. */
  function ModeValue(mode: BootMode): string {
    match mode
    case UEFI => BOOT_MODE + "uefi"
    case UEFISecureBoot => BOOT_MODE + "uefi," + SECURE_BOOT + "true"
    case Legacy => BOOT_MODE + "bios"
    case Unset => ""
  }

  /** The node's capabilities property: missing with its node, missing, of another type, or text. */
  datatype Existing = NoNode | NoProperty | NotText | Value(text: string)

  function TextOf(existing: Existing): string {
    if existing.Value? then existing.text else ""
  }

  predicate SetsBootMode(item: string) {
    BOOT_MODE <= item || SECURE_BOOT <= item
  }

  function Filter(items: seq<string>): (kept: seq<string>)
    ensures forall i | 0 <= i < |kept| :: !SetsBootMode(kept[i]) && kept[i] in items
  {
    if items == [] then []
    else (if SetsBootMode(items[0]) then [] else [items[0]]) + Filter(items[1..])
  }

  function Build(c: string, mode: BootMode): string {
    if c == "" then ModeValue(mode) else Join(Filter(Split(c, ',')) + [ModeValue(mode)], ',')
  }

  method BuildCapabilitiesValue(existing: Existing, mode: BootMode) returns (value: string)
    ensures value == Build(TextOf(existing), mode)
  {
    if !existing.Value? || existing.text == "" {
      return ModeValue(mode);
    }
    var items := Split(existing.text, ',');
    var filtered := [];
    for i := 0 to |items|
      invariant filtered == Filter(items[..i])
    {
      FilterNext(items, i);
      if !(BOOT_MODE <= items[i]) && !(SECURE_BOOT <= items[i]) {
        filtered := filtered + [items[i]];
      }
    }
    assert items[..|items|] == items;
    value := Join(filtered + [ModeValue(mode)], ',');
  }

  // ----- what rewriting keeps and replaces -----

  /** The capabilities that say nothing about booting, in their order; the empty string has none. */
  function Kept(c: string): seq<string> {
    if c == "" then [] else Filter(Split(c, ','))
  }

  lemma {:induction false} FilterConcat(a: seq<string>, b: seq<string>)
    ensures Filter(a + b) == Filter(a) + Filter(b)
  {
    if a != [] {
      assert (a + b)[1..] == a[1..] + b;
      FilterConcat(a[1..], b);
    } else {
      assert a + b == b;
    }
  }

  lemma FilterNext(items: seq<string>, i: nat)
    requires i < |items|
    ensures Filter(items[..i + 1]) == Filter(items[..i]) + if SetsBootMode(items[i]) then [] else [items[i]]
  {
    assert items[..i + 1] == items[..i] + [items[i]];
    FilterConcat(items[..i], [items[i]]);
  }

  lemma {:induction false} FilterIdempotent(items: seq<string>)
    requires forall i | 0 <= i < |items| :: !SetsBootMode(items[i])
    ensures Filter(items) == items
  {
    if items != [] {
      FilterIdempotent(items[1..]);
    }
  }

  /** Joining and splitting again, when the last item may itself be a list. */
  lemma {:induction false} SplitJoinTail(items: seq<string>, last: string)
    requires forall i | 0 <= i < |items| :: ',' !in items[i]
    ensures Split(Join(items + [last], ','), ',') == items + Split(last, ',')
  {
    hide Split;
    if items == [] {
      assert items + [last] == [last];
      assert items + Split(last, ',') == Split(last, ',');
    } else {
      var rest := items[1..] + [last];
      SplitJoinTail(items[1..], last);
      assert items + [last] == [items[0]] + rest;
      SplitAfter(items[0], Join(rest, ','), ',');
      assert items == [items[0]] + items[1..];
    }
  }

  lemma KeptHasNoCommas(c: string)
    ensures forall i | 0 <= i < |Kept(c)| :: ',' !in Kept(c)[i]
  {
    JoinSplit(c, ',');
  }

  /** Whatever the capabilities were, the items after rewriting are the old ones that do not set the boot mode, in
      their order and as often as before, and then exactly the items of the requested mode. */
  lemma RewritingKeepsTheRest(c: string, mode: BootMode)
    ensures Split(Build(c, mode), ',') == Kept(c) + Split(ModeValue(mode), ',')
  {
    if c != "" {
      KeptHasNoCommas(c);
      SplitJoinTail(Kept(c), ModeValue(mode));
    }
  }

  /** The items that a mode stands for; a mode that is not known leaves an empty one. */
  function ModeItems(mode: BootMode): seq<string> {
    match mode
    case UEFI => ["boot_mode:uefi"]
    case UEFISecureBoot => ["boot_mode:uefi", "secure_boot:true"]
    case Legacy => ["boot_mode:bios"]
    case Unset => [""]
  }

  lemma ModeValueHasItems(mode: BootMode)
    ensures Split(ModeValue(mode), ',') == ModeItems(mode)
  {
    hide Split;
    ItemsSpelled();
    match mode {
      case UEFI => OneItem(BOOT_MODE, "uefi");
      case Legacy => OneItem(BOOT_MODE, "bios");
      case Unset => OneItem("", "");
      case UEFISecureBoot => SecureItems();
    }
  }

  lemma ItemsSpelled()
    ensures BOOT_MODE + "uefi" == "boot_mode:uefi" && BOOT_MODE + "bios" == "boot_mode:bios"
    ensures SECURE_BOOT + "true" == "secure_boot:true" && "" + "" == ""
  {
  }

  lemma OneItem(key: string, value: string)
    requires ',' !in key && ',' !in value
    ensures Split(key + value, ',') == [key + value]
  {
    SplitPlain(key + value, ',');
  }

  lemma SecureItems()
    ensures Split(ModeValue(UEFISecureBoot), ',') == ["boot_mode:uefi", "secure_boot:true"]
  {
    hide Split;
    ItemsSpelled();
    var (first, second) := (BOOT_MODE + "uefi", SECURE_BOOT + "true");
    assert ModeValue(UEFISecureBoot) == first + [','] + second;
    SplitAfter(first, second, ',');
    OneItem(SECURE_BOOT, "true");
    assert [first] + [second] == [first, second];
  }

  /** After rewriting, the capabilities that say anything about booting are those of the mode, and they come last. */
  lemma RewritingSetsTheMode(c: string, mode: BootMode)
    ensures Split(Build(c, mode), ',') == Kept(c) + ModeItems(mode)
    ensures forall item | item in Kept(c) :: !("boot_mode:" <= item) && !("secure_boot:" <= item)
    ensures c != "" ==> forall item | item in Split(c, ',') ::
              "boot_mode:" <= item || "secure_boot:" <= item || item in Kept(c)
  {
    RewritingKeepsTheRest(c, mode);
    ModeValueHasItems(mode);
    if c != "" {
      FilterKeepsOthers(Split(c, ','));
    }
  }

  lemma {:induction false} FilterKeepsOthers(items: seq<string>)
    ensures forall item | item in items :: SetsBootMode(item) || item in Filter(items)
  {
    if items != [] {
      FilterKeepsOthers(items[1..]);
    }
  }

  /** The items of a known mode all set the boot mode. */
  lemma KnownModes(mode: BootMode)
    ensures mode != Unset ==> ModeValue(mode) != "" && Filter(Split(ModeValue(mode), ',')) == []
  {
    if mode == UEFI || mode == Legacy {
      assert ',' !in ModeValue(mode);
      SplitPlain(ModeValue(mode), ',');
    } else if mode == UEFISecureBoot {
      var (first, second) := (BOOT_MODE + "uefi", SECURE_BOOT + "true");
      assert ModeValue(mode) == first + [','] + second;
      SplitAfter(first, second, ',');
      SplitPlain(second, ',');
      assert [first] + [second] == [first, second];
      assert Filter([first, second][1..]) == [];
    }
  }

  lemma KeptAfterBuild(c: string, mode: BootMode)
    ensures Kept(Build(c, mode)) ==
            if mode != Unset || Build(c, mode) == "" then Kept(c) else Kept(c) + [""]
  {
    RewritingKeepsTheRest(c, mode);
    FilterConcat(Kept(c), Split(ModeValue(mode), ','));
    if c != "" {
      FilterIdempotent(Kept(c));
    }
    KnownModes(mode);
    if Build(c, mode) == "" {
      assert [""] == Kept(c) + Split(ModeValue(mode), ',');
      assert |Kept(c)| == 0;
    }
  }

  /** Rewriting twice is rewriting once with the last mode, for every string and all modes, unless the first mode is
      not one of the three known ones and there was something to keep: then an empty item is left behind. */
  lemma LastWriterWins(c: string, first: BootMode, last: BootMode)
    ensures Build(Build(c, first), last) == Build(c, last) <==> first != Unset || Kept(c) == []
  {
    var once := Build(c, first);
    KeptAfterBuild(c, first);
    BuildKept(c, last);
    BuildKept(once, last);
    if first == Unset && Kept(c) != [] {
      RewritingKeepsTheRest(c, last);
      RewritingKeepsTheRest(once, last);
      KeptGrows(c);
    }
  }

  lemma BuildKept(c: string, mode: BootMode)
    ensures Build(c, mode) == Join(Kept(c) + [ModeValue(mode)], ',')
  {
    assert [] + [ModeValue(mode)] == [ModeValue(mode)];
  }

  lemma KeptGrows(c: string)
    requires Kept(c) != []
    ensures Build(c, Unset) != ""
  {
    BuildKept(c, Unset);
  }

  /** In particular, rewriting to a known mode is idempotent. */
  lemma Idempotent(c: string, mode: BootMode)
    requires mode != Unset
    ensures Build(Build(c, mode), mode) == Build(c, mode)
  {
    LastWriterWins(c, mode, mode);
  }
}
