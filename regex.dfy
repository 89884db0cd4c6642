/** The fragment of Java regular expressions the validators use, matched
    against a whole string as `String.matches` does: literal characters,
    character classes repeated between a lower and an upper bound (`[0-9]{7,8}`)
    or at least a lower bound (`.{8,}`, `.*`), lookaheads at the start, and
    anchored alternation written as a disjunction by the caller. Matching is
    stated on positions of the subject string, `s[i..j]`, so that proofs
    about a pattern never slice the subject. */
module Regex {

  /** The character classes that occur in the validators' patterns. */
  datatype CharClass =
    | AsciiDigit         // [0-9]
    | RutCheck           // [0-9kK]
    | AsciiLower         // [a-z]
    | AsciiUpper         // [A-Z]
    | PasswordSpecial    // [@$!%*?&._-]
    | NotLineTerminator  // `.` without DOTALL

  predicate InClass(c: char, cls: CharClass)
  {
    match cls
    case AsciiDigit => '0' <= c <= '9'
    case RutCheck => '0' <= c <= '9' || c == 'k' || c == 'K'
    case AsciiLower => 'a' <= c <= 'z'
    case AsciiUpper => 'A' <= c <= 'Z'
    case PasswordSpecial =>
      || c == '@' || c == '$' || c == '!' || c == '%' || c == '*'
      || c == '?' || c == '&' || c == '.' || c == '_' || c == '-'
    case NotLineTerminator =>
      && c != '\n' && c != '\r' && c != '\U{0085}' && c != '\U{2028}' && c != '\U{2029}'
  }

  datatype Atom =
    | Lit(c: char)                                 // one literal character
    | Rep(cls: CharClass, min: nat, max: nat)      // cls{min,max}
    | RepMin(cls: CharClass, min: nat)             // cls{min,}

  /** Every character of `s[from..to]` is in `cls`. */
  predicate ClassOn(s: string, from: nat, to: nat, cls: CharClass)
    requires from <= to <= |s|
  {
    forall i :: from <= i < to ==> InClass(s[i], cls)
  }

  predicate AllIn(s: string, cls: CharClass)
  {
    ClassOn(s, 0, |s|, cls)
  }

  /** `s[i..j]` as a whole is in the language of the atom sequence `p`. */
  predicate MatchesRange(p: seq<Atom>, s: string, i: nat, j: nat)
    requires i <= j <= |s|
    decreases |p|
  {
    if p == [] then i == j
    else match p[0]
      case Lit(c) => i < j && s[i] == c && MatchesRange(p[1..], s, i + 1, j)
      case Rep(cls, lo, hi) =>
        exists m :: i + lo <= m <= i + hi && m <= j && ClassOn(s, i, m, cls) && MatchesRange(p[1..], s, m, j)
      case RepMin(cls, lo) =>
        exists m :: i + lo <= m <= j && ClassOn(s, i, m, cls) && MatchesRange(p[1..], s, m, j)
  }

  /** `s.matches(p)`: the whole string is in the language of `p`. */
  predicate Matches(p: seq<Atom>, s: string)
  {
    MatchesRange(p, s, 0, |s|)
  }

  /** A lookahead `(?=p)` at the start of `s`: some prefix of `s` matches. */
  predicate MatchesPrefix(p: seq<Atom>, s: string)
  {
    exists j :: 0 <= j <= |s| && MatchesRange(p, s, 0, j)
  }

  /** `(?=.*X)` written out: any run of non-terminators, then one `X`. */
  function Lookahead(cls: CharClass): seq<Atom>
  {
    [RepMin(NotLineTerminator, 0), Rep(cls, 1, 1)]
  }

  /** A class that covers the whole string covers each of its prefixes. */
  lemma ClassOnPrefixes(s: string, cls: CharClass)
    ensures AllIn(s, cls) ==> forall k :: 0 <= k <= |s| ==> ClassOn(s, 0, k, cls)
  {
  }

  lemma MatchesEmpty(s: string)
    ensures Matches([], s) <==> s == []
  {
  }

  lemma RangeLit(c: char, rest: seq<Atom>, s: string, i: nat, j: nat)
    requires i <= j <= |s|
    ensures MatchesRange([Lit(c)] + rest, s, i, j) <==> i < j && s[i] == c && MatchesRange(rest, s, i + 1, j)
  {
    assert ([Lit(c)] + rest)[1..] == rest;
  }

  lemma RangeRep(cls: CharClass, lo: nat, hi: nat, rest: seq<Atom>, s: string, i: nat, j: nat)
    requires i <= j <= |s|
    ensures MatchesRange([Rep(cls, lo, hi)] + rest, s, i, j) <==>
      exists m :: i + lo <= m <= i + hi && m <= j && ClassOn(s, i, m, cls) && MatchesRange(rest, s, m, j)
  {
    assert ([Rep(cls, lo, hi)] + rest)[1..] == rest;
  }

  lemma RangeRepMin(cls: CharClass, lo: nat, rest: seq<Atom>, s: string, i: nat, j: nat)
    requires i <= j <= |s|
    ensures MatchesRange([RepMin(cls, lo)] + rest, s, i, j) <==>
      exists m :: i + lo <= m <= j && ClassOn(s, i, m, cls) && MatchesRange(rest, s, m, j)
  {
    assert ([RepMin(cls, lo)] + rest)[1..] == rest;
  }

  /** A fixed-width repetition `cls{n}` consumes exactly `n` characters. */
  lemma RangeRepFixed(cls: CharClass, n: nat, rest: seq<Atom>, s: string, i: nat, j: nat)
    requires i <= j <= |s|
    ensures MatchesRange([Rep(cls, n, n)] + rest, s, i, j) <==>
      i + n <= j && ClassOn(s, i, i + n, cls) && MatchesRange(rest, s, i + n, j)
  {
    RangeRep(cls, n, n, rest, s, i, j);
  }

  /** A repetition that ends the pattern must consume the rest of the range. */
  lemma RangeRepLast(cls: CharClass, lo: nat, hi: nat, s: string, i: nat, j: nat)
    requires i <= j <= |s|
    ensures MatchesRange([Rep(cls, lo, hi)], s, i, j) <==> i + lo <= j <= i + hi && ClassOn(s, i, j, cls)
  {
    assert [Rep(cls, lo, hi)] == [Rep(cls, lo, hi)] + [];
    RangeRep(cls, lo, hi, [], s, i, j);
  }

  lemma RangeRepMinLast(cls: CharClass, lo: nat, s: string, i: nat, j: nat)
    requires i <= j <= |s|
    ensures MatchesRange([RepMin(cls, lo)], s, i, j) <==> i + lo <= j && ClassOn(s, i, j, cls)
  {
    assert [RepMin(cls, lo)] == [RepMin(cls, lo)] + [];
    RangeRepMin(cls, lo, [], s, i, j);
  }

  /** A whole-string bounded repetition matches exactly the strings of its
      class whose length is within the bounds. */
  lemma MatchesRepLast(cls: CharClass, lo: nat, hi: nat, s: string)
    ensures Matches([Rep(cls, lo, hi)], s) <==> lo <= |s| <= hi && AllIn(s, cls)
  {
    RangeRepLast(cls, lo, hi, s, 0, |s|);
  }

  lemma MatchesRepMinLast(cls: CharClass, lo: nat, s: string)
    ensures Matches([RepMin(cls, lo)], s) <==> lo <= |s| && AllIn(s, cls)
  {
    RangeRepMinLast(cls, lo, s, 0, |s|);
  }

  /** `(?=.*X)` matches `s[0..j]` exactly when that prefix is a run of
      non-terminators followed by one character of class `X`. */
  lemma LookaheadRange(cls: CharClass, s: string, j: nat)
    requires j <= |s|
    ensures MatchesRange(Lookahead(cls), s, 0, j) <==>
      0 < j && ClassOn(s, 0, j - 1, NotLineTerminator) && InClass(s[j - 1], cls)
  {
    assert Lookahead(cls) == [RepMin(NotLineTerminator, 0)] + [Rep(cls, 1, 1)];
    RangeRepMin(NotLineTerminator, 0, [Rep(cls, 1, 1)], s, 0, j);
    if MatchesRange(Lookahead(cls), s, 0, j) {
      var m :| 0 <= m <= j && ClassOn(s, 0, m, NotLineTerminator) && MatchesRange([Rep(cls, 1, 1)], s, m, j);
      RangeRepLast(cls, 1, 1, s, m, j);
    }
    if 0 < j && ClassOn(s, 0, j - 1, NotLineTerminator) && InClass(s[j - 1], cls) {
      RangeRepLast(cls, 1, 1, s, j - 1, j);
    }
  }

  /** The lookahead `(?=.*X)`: a character of class `X` occurs before any
      line terminator. */
  lemma LookaheadFinds(cls: CharClass, s: string)
    ensures MatchesPrefix(Lookahead(cls), s) <==>
      exists k :: 0 <= k < |s| && ClassOn(s, 0, k, NotLineTerminator) && InClass(s[k], cls)
  {
    if MatchesPrefix(Lookahead(cls), s) {
      var j :| 0 <= j <= |s| && MatchesRange(Lookahead(cls), s, 0, j);
      LookaheadRange(cls, s, j);
      assert ClassOn(s, 0, j - 1, NotLineTerminator) && InClass(s[j - 1], cls);
    }
    if exists k :: 0 <= k < |s| && ClassOn(s, 0, k, NotLineTerminator) && InClass(s[k], cls) {
      var k :| 0 <= k < |s| && ClassOn(s, 0, k, NotLineTerminator) && InClass(s[k], cls);
      LookaheadRange(cls, s, k + 1);
    }
  }
}
