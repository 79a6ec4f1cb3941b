/** Splitting and joining strings at a separator, as strings.Split and strings.Join do. */
module Strings {

  /** strings.Split with a one-character separator: the empty string is one empty item. */
  function Split(s: string, separator: char): (items: seq<string>)
    ensures |items| >= 1
  {
    if s == "" then [""]
    else
      var rest := Split(s[1..], separator);
      if s[0] == separator then [""] + rest else [[s[0]] + rest[0]] + rest[1..]
  }

  function Join(items: seq<string>, separator: char): string {
    if |items| == 0 then ""
    else if |items| == 1 then items[0]
    else items[0] + [separator] + Join(items[1..], separator)
  }

  /** Splitting at a separator that starts the item `s` is over once `s` is. */
  lemma {:induction false} SplitAfter(s: string, rest: string, separator: char)
    requires separator !in s
    ensures Split(s + [separator] + rest, separator) == [s] + Split(rest, separator)
  {
    var whole := s + [separator] + rest;
    if s == "" {
      assert whole[1..] == rest;
    } else {
      assert whole[1..] == s[1..] + [separator] + rest;
      SplitAfter(s[1..], rest, separator);
      assert [s[0]] + s[1..] == s;
    }
  }

  lemma {:induction false} SplitPlain(s: string, separator: char)
    requires separator !in s
    ensures Split(s, separator) == [s]
  {
    if s != "" {
      SplitPlain(s[1..], separator);
      assert [s[0]] + s[1..] == s;
    }
  }

  /** Splitting undoes joining, for items without the separator. */
  lemma {:induction false} SplitJoin(items: seq<string>, separator: char)
    requires |items| >= 1 && forall i | 0 <= i < |items| :: separator !in items[i]
    ensures Split(Join(items, separator), separator) == items
  {
    if |items| == 1 {
      SplitPlain(items[0], separator);
    } else {
      SplitJoin(items[1..], separator);
      SplitAfter(items[0], Join(items[1..], separator), separator);
    }
  }

  /** The items have no separator in them, and joining them gives the string back. */
  lemma {:induction false} JoinSplit(s: string, separator: char)
    ensures Join(Split(s, separator), separator) == s
    ensures forall i | 0 <= i < |Split(s, separator)| :: separator !in Split(s, separator)[i]
  {
    if s != "" {
      var rest := Split(s[1..], separator);
      JoinSplit(s[1..], separator);
      if s[0] != separator {
        assert ([[s[0]] + rest[0]] + rest[1..])[1..] == rest[1..];
      } else {
        assert ([""] + rest)[1..] == rest;
      }
    }
  }
}
