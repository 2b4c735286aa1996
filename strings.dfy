/** The two `str` operations the callback handler routes on: `starts_with` and `split`. */
module Strings {

  /** `s.starts_with(prefix)`. */
  predicate StartsWith(s: string, prefix: string)
  {
    |prefix| <= |s| && s[..|prefix|] == prefix
  }

  /** The tokens joined back with the separator between each two. */
  function Join(parts: seq<string>, sep: char): string
  {
    if parts == [] then ""
    else if |parts| == 1 then parts[0]
    else parts[0] + [sep] + Join(parts[1..], sep)
  }

  /** `s.split(sep).collect()`: the maximal separator-free pieces between separators; the empty
      string gives one empty token and every separator adds one token. */
  function Split(s: string, sep: char): (parts: seq<string>)
    ensures |parts| >= 1
    ensures Join(parts, sep) == s
    ensures forall i | 0 <= i < |parts| :: sep !in parts[i]
    decreases |s|
  {
    if s == [] then [""]
    else
      var rest := Split(s[1..], sep);
      if s[0] == sep then
        assert s == [sep] + s[1..];
        [""] + rest
      else
        var parts := [[s[0]] + rest[0]] + rest[1..];
        assert parts[1..] == rest[1..];
        assert s == [s[0]] + s[1..];
        parts
  }

  /** Splitting a join of separator-free tokens gives the tokens back: `split` is the exact
      inverse of `Join` on one or more tokens. */
  lemma {:induction false} SplitJoin(parts: seq<string>, sep: char)
    requires |parts| >= 1
    requires forall i | 0 <= i < |parts| :: sep !in parts[i]
    ensures Split(Join(parts, sep), sep) == parts
    decreases |parts|
  {
    if |parts| == 1 {
      SplitTokenThen(parts[0], "", sep);
    } else {
      var tail := Join(parts[1..], sep);
      SplitJoin(parts[1..], sep);
      SplitAtSeparator(tail, sep);
      SplitTokenThen(parts[0], [sep] + tail, sep);
      JoinCons(parts, sep);
      assert parts[0] + "" == parts[0];
      assert [parts[0]] + parts[1..] == parts;
    }
  }

  /** A leading separator contributes an empty first token. */
  lemma SplitAtSeparator(s: string, sep: char)
    ensures Split([sep] + s, sep) == [""] + Split(s, sep)
  {
    assert ([sep] + s)[1..] == s;
  }

  lemma JoinCons(parts: seq<string>, sep: char)
    requires |parts| >= 2
    ensures Join(parts, sep) == parts[0] + ([sep] + Join(parts[1..], sep))
  {
  }

  /** A separator-free token in front of `rest` is glued to the first token of `rest`. */
  lemma {:induction false} SplitTokenThen(token: string, rest: string, sep: char)
    requires sep !in token
    ensures var r := Split(rest, sep); Split(token + rest, sep) == [token + r[0]] + r[1..]
    decreases |token|
  {
    if token != [] {
      assert (token + rest)[1..] == token[1..] + rest;
      assert token[0] != sep by { assert token[0] in token; }
      SplitTokenThen(token[1..], rest, sep);
      assert [token[0]] + (token[1..] + Split(rest, sep)[0]) == token + Split(rest, sep)[0];
    } else {
      var r := Split(rest, sep);
      assert token + rest == rest && token + r[0] == r[0];
      assert [r[0]] + r[1..] == r;
    }
  }
}
