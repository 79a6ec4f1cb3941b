/** Label requirements, as the Kubernetes label library makes and matches them, and the selector of a HostClaim
    (hostLabelSelectorForHostClaim in pkg/hostclaim/hostclaim_manager.go). */
module LabelSelectors {
  import opened HostTypes

  type Labels = map<string, string>

  datatype Requirement = Requirement(key: string, operator: string, values: seq<string>)

  /** An expression of the selector; `wellFormed` tells whether key and values have the syntax of labels. */
  datatype Expression = Expression(key: string, operator: string, values: seq<string>, wellFormed: bool)

  // ----- integers in labels -----

  predicate AllDigits(s: string) {
    forall i | 0 <= i < |s| :: '0' <= s[i] <= '9'
  }

  function DigitsValue(s: string): int
    requires AllDigits(s)
  {
    if s == "" then 0 else DigitsValue(s[..|s| - 1]) * 10 + (s[|s| - 1] as int - '0' as int)
  }

  const MAX_INT64: int := 0x7fff_ffff_ffff_ffff

  /** strconv.ParseInt in base 10 and 64 bits. */
  function ParseInt(s: string): Option<int> {
    var signed := s != "" && s[0] in {'+', '-'};
    var digits := if signed then s[1..] else s;
    if digits == "" || !AllDigits(digits) then None
    else
      var value := if signed && s[0] == '-' then -DigitsValue(digits) else DigitsValue(digits);
      if -MAX_INT64 - 1 <= value <= MAX_INT64 then Some(value) else None
  }

  /** A natural number in decimal. */
  function Decimal(n: nat): (s: string)
    ensures s != "" && AllDigits(s) && DigitsValue(s) == n
  {
    var digit := ['0' + (n % 10) as char];
    assert DigitsValue(digit) == n % 10 by { assert digit[..0] == ""; }
    if n < 10 then digit
    else
      assert (Decimal(n / 10) + digit)[..|Decimal(n / 10)|] == Decimal(n / 10);
      Decimal(n / 10) + digit
  }

  lemma DigitsAreRead(s: string)
    requires s != "" && AllDigits(s)
    ensures var n := DigitsValue(s);
            && ParseInt(s) == ParseInt("+" + s) == (if n <= MAX_INT64 then Some(n) else None)
            && ParseInt("-" + s) == if n <= MAX_INT64 + 1 then Some(-n) else None
  {
    hide DigitsValue;
    assert ("+" + s)[1..] == s && ("-" + s)[1..] == s;
    assert DigitsValue(s) >= 0 by { DigitsAreNatural(s); }
  }

  lemma DigitsAreNatural(s: string)
    requires AllDigits(s)
    ensures DigitsValue(s) >= 0
  {
  }

  /** Numbers are read as they are written, with a sign or without. */
  lemma NumbersAreRead(n: int)
    requires n >= 0
    ensures ParseInt(Decimal(n)) == ParseInt("+" + Decimal(n)) == if n <= MAX_INT64 then Some(n) else None
    ensures ParseInt("-" + Decimal(n)) == if n <= MAX_INT64 + 1 then Some(-n) else None
  {
    hide Decimal, ParseInt;
    DigitsAreRead(Decimal(n));
  }

  // ----- requirements -----

  predicate CountFits(operator: string, values: seq<string>) {
    || (operator in {"in", "notin"} && values != [])
    || (operator in {"=", "==", "!="} && |values| == 1)
    || (operator in {"exists", "!"} && values == [])
    || (operator in {"gt", "lt"} && |values| == 1 && ParseInt(values[0]).Some?)
  }

  /** NewRequirement */
  function NewRequirement(key: string, operator: string, values: seq<string>, wellFormed: bool): Option<Requirement> {
    if wellFormed && CountFits(operator, values) then Some(Requirement(key, operator, values)) else None
  }

  /** Requirement.Matches */
  predicate Matches(r: Requirement, labels: Labels) {
    if r.operator in {"in", "=", "=="} then r.key in labels && labels[r.key] in r.values
    else if r.operator in {"notin", "!="} then r.key in labels ==> labels[r.key] !in r.values
    else if r.operator == "exists" then r.key in labels
    else if r.operator == "!" then r.key !in labels
    else if r.operator in {"gt", "lt"} && r.key in labels && |r.values| == 1 then
      var (value, bound) := (ParseInt(labels[r.key]), ParseInt(r.values[0]));
      && value.Some? && bound.Some?
      && (if r.operator == "gt" then value.value > bound.value else value.value < bound.value)
    else false
  }

  // ----- the selector of a claim -----

  /** `labelsWellFormed` tells whether the wanted labels have the syntax of labels. */
  datatype HostSelector = HostSelector(matchLabels: Labels, labelsWellFormed: bool, expressions: seq<Expression>)

  /** strings.ToLower, on operators. */
  function LowerCase(s: string): string {
    seq(|s|, i requires 0 <= i < |s| => ToLower(s[i]))
  }

  function Required(e: Expression): Option<Requirement> {
    NewRequirement(e.key, LowerCase(e.operator), e.values, e.wellFormed)
  }

  predicate ValidSelector(selector: HostSelector) {
    && (selector.labelsWellFormed || selector.matchLabels == map[])
    && forall e | e in selector.expressions :: Required(e).Some?
  }

  predicate Selects(selector: HostSelector, labels: Labels)
    requires ValidSelector(selector)
  {
    && (forall k | k in selector.matchLabels :: k in labels && labels[k] == selector.matchLabels[k])
    && forall e | e in selector.expressions :: Matches(Required(e).value, labels)
  }

  predicate MatchesAll(requirements: seq<Requirement>, labels: Labels) {
    forall r | r in requirements :: Matches(r, labels)
  }

  /** Collects a requirement for each label, in an arbitrary order, and one for each expression: the hosts that meet
      them all are those the selector is meant to select, and there is an error exactly for a selector that is not
      valid. */
  method HostLabelSelectorForHostClaim(selector: HostSelector) returns (requirements: seq<Requirement>, ok: bool)
    ensures ok <==> ValidSelector(selector)
    ensures ok ==> forall labels: Labels :: MatchesAll(requirements, labels) <==> Selects(selector, labels)
  {
    requirements := [];
    var todo := selector.matchLabels.Keys;
    while todo != {}
      invariant todo <= selector.matchLabels.Keys
      invariant selector.labelsWellFormed || todo == selector.matchLabels.Keys
      invariant forall r :: r in requirements <==>
                  r.key in selector.matchLabels && r.key !in todo
                    && r == Requirement(r.key, "=", [selector.matchLabels[r.key]])
      decreases todo
    {
      var k :| k in todo;
      var r := NewRequirement(k, "=", [selector.matchLabels[k]], selector.labelsWellFormed);
      if r == None {
        return [], false;
      }
      requirements := requirements + [r.value];
      todo := todo - {k};
    }
    ghost var forLabels := requirements;
    for i := 0 to |selector.expressions|
      invariant forall j | 0 <= j < i :: Required(selector.expressions[j]).Some?
      invariant forall r :: r in requirements <==>
                  r in forLabels || exists j | 0 <= j < i :: Required(selector.expressions[j]) == Some(r)
    {
      var e := selector.expressions[i];
      assert e in selector.expressions;
      var r := NewRequirement(e.key, LowerCase(e.operator), e.values, e.wellFormed);
      if r == None {
        return [], false;
      }
      requirements := requirements + [r.value];
    }
    ok := true;
    forall labels: Labels ensures MatchesAll(requirements, labels) <==> Selects(selector, labels) {
      RequirementsSelect(selector, forLabels, requirements, labels);
    }
  }

  lemma RequirementsSelect(selector: HostSelector, forLabels: seq<Requirement>, all: seq<Requirement>, labels: Labels)
    requires ValidSelector(selector)
    requires forall r :: r in forLabels <==>
               r.key in selector.matchLabels && r == Requirement(r.key, "=", [selector.matchLabels[r.key]])
    requires forall r :: r in all <==>
               r in forLabels || exists j | 0 <= j < |selector.expressions| ::
                 Required(selector.expressions[j]) == Some(r)
    ensures MatchesAll(all, labels) <==> Selects(selector, labels)
  {
    if MatchesAll(all, labels) {
      forall k | k in selector.matchLabels ensures k in labels && labels[k] == selector.matchLabels[k] {
        assert Requirement(k, "=", [selector.matchLabels[k]]) in all;
      }
      forall e | e in selector.expressions ensures Matches(Required(e).value, labels) {
        assert Required(e).value in all;
      }
    }
  }

  // ----- what the expressions are meant to say -----

  /** The operators of Kubernetes label selectors, and those that the label library has besides. */
  datatype Operator =
    | In | NotIn | Exists | DoesNotExist
    | Equals | DoubleEquals | NotEquals | Absent | GreaterThan | LessThan

  datatype Wish = Wish(key: string, operator: Operator, values: seq<string>, wellFormed: bool)

  /** What a user means by it. */
  predicate Meant(w: Wish, labels: Labels) {
    match w.operator
    case In => exists v | v in w.values :: w.key in labels && labels[w.key] == v
    case NotIn => forall v | v in w.values :: !(w.key in labels && labels[w.key] == v)
    case Exists => w.key in labels
    case DoesNotExist => w.key !in labels
    case Absent => w.key !in labels
    case Equals => w.key in labels && w.values == [labels[w.key]]
    case DoubleEquals => w.key in labels && w.values == [labels[w.key]]
    case NotEquals => w.key in labels ==> w.values != [labels[w.key]]
    case GreaterThan => Below(BoundOf(w), Number(labels, w.key))
    case LessThan => Below(Number(labels, w.key), BoundOf(w))
  }

  predicate Below(a: Option<int>, b: Option<int>) {
    a.Some? && b.Some? && a.value < b.value
  }

  /** The number that a label holds, and the one that an expression names. */
  function Number(labels: Labels, key: string): Option<int> {
    if key in labels then ParseInt(labels[key]) else None
  }

  function BoundOf(w: Wish): Option<int> {
    if |w.values| == 1 then ParseInt(w.values[0]) else None
  }

  /** How many values an operator wants: some, none, exactly one, or one number. */
  predicate Sensible(w: Wish) {
    && w.wellFormed
    && match w.operator
       case In => w.values != []
       case NotIn => w.values != []
       case Exists => w.values == []
       case DoesNotExist => w.values == []
       case Absent => w.values == []
       case Equals => |w.values| == 1
       case DoubleEquals => |w.values| == 1
       case NotEquals => |w.values| == 1
       case GreaterThan => BoundOf(w).Some?
       case LessThan => BoundOf(w).Some?
  }

  function Spelling(operator: Operator): string {
    match operator
    case In => "In"
    case NotIn => "NotIn"
    case Exists => "Exists"
    case DoesNotExist => "DoesNotExist"
    case Equals => "="
    case DoubleEquals => "=="
    case NotEquals => "!="
    case Absent => "!"
    case GreaterThan => "gt"
    case LessThan => "lt"
  }

  function Spelled(w: Wish): Expression {
    Expression(w.key, Spelling(w.operator), w.values, w.wellFormed)
  }

  function SelectorFor(matchLabels: Labels, labelsWellFormed: bool, wishes: seq<Wish>): HostSelector {
    HostSelector(matchLabels, labelsWellFormed, seq(|wishes|, i requires 0 <= i < |wishes| => Spelled(wishes[i])))
  }

  lemma SpellingsLowered()
    ensures LowerCase("In") == "in" && LowerCase("NotIn") == "notin" && LowerCase("Exists") == "exists"
    ensures |LowerCase("DoesNotExist")| == 12
    ensures LowerCase("=") == "=" && LowerCase("==") == "==" && LowerCase("!=") == "!=" && LowerCase("!") == "!"
    ensures LowerCase("gt") == "gt" && LowerCase("lt") == "lt"
  {
  }

  /** Whatever else a selector asks for, DoesNotExist makes it invalid, and the library's own name would not. */
  lemma DoesNotExistIsRefused(selector: HostSelector, key: string)
    requires Expression(key, "DoesNotExist", [], true) in selector.expressions
    ensures !ValidSelector(selector)
    ensures Required(Expression(key, "!", [], true)).Some?
  {
    SpellingsLowered();
    assert Required(Expression(key, "DoesNotExist", [], true)).None?;
  }

  /** One expression is accepted if and only if it is sensible and its operator is not DoesNotExist, of which the
      lowered form is not the label library's own name, "!"; and then it matches the labels that it is meant to. */
  lemma ExpressionMeans(w: Wish, labels: Labels)
    ensures Required(Spelled(w)).Some? <==> Sensible(w) && w.operator != DoesNotExist
    ensures Required(Spelled(w)).Some? ==> (Matches(Required(Spelled(w)).value, labels) <==> Meant(w, labels))
  {
    hide LowerCase, ParseInt;
    SpellingsLowered();
  }

  /** A selector over these operators is accepted if and only if its labels are well formed, its expressions are
      sensible and none says DoesNotExist; and then it selects exactly the hosts that have the wanted labels and are as
      every expression means. */
  lemma SelectorsMeanWhatTheySay(matchLabels: Labels, labelsWellFormed: bool, wishes: seq<Wish>)
    ensures var selector := SelectorFor(matchLabels, labelsWellFormed, wishes);
            && (ValidSelector(selector) <==>
                && (labelsWellFormed || matchLabels == map[])
                && forall w | w in wishes :: Sensible(w) && w.operator != DoesNotExist)
            && (ValidSelector(selector) ==> forall labels: Labels ::
                  Selects(selector, labels) <==>
                  && (forall k | k in matchLabels :: k in labels && labels[k] == matchLabels[k])
                  && forall w | w in wishes :: Meant(w, labels))
  {
    hide Required, Matches, Meant, Sensible;
    var selector := SelectorFor(matchLabels, labelsWellFormed, wishes);
    var expressions := selector.expressions;
    forall w ensures Required(Spelled(w)).Some? <==> Sensible(w) && w.operator != DoesNotExist {
      ExpressionMeans(w, map[]);
    }
    forall w, labels: Labels | Required(Spelled(w)).Some?
      ensures Matches(Required(Spelled(w)).value, labels) <==> Meant(w, labels)
    {
      ExpressionMeans(w, labels);
    }
    assert forall i | 0 <= i < |wishes| :: expressions[i] == Spelled(wishes[i]) && wishes[i] in wishes;
    assert forall w | w in wishes :: Spelled(w) in expressions;
  }
}
