/** The few pieces of Go's `strings` and `fmt` packages that the deployer's
behaviour depends on: joining argument lists, `strings.ReplaceAll`, searching for
a separator, and printing an `int` with `%d`.  A Go string is modelled as a
sequence of characters, one per rune.
 */
module Text {
  import opened Errors

  /** `p` occurs in `s` starting at position `i`. */
  predicate HasAt(s: string, p: string, i: nat)
  {
    i + |p| <= |s| && s[i..i + |p|] == p
  }

  predicate Contains(s: string, p: string)
  {
    exists i: nat | i <= |s| :: HasAt(s, p, i)
  }

  /** `strings.Join`. */
  function Join(parts: seq<string>, sep: string): string
  {
    if |parts| == 0 then ""
    else if |parts| == 1 then parts[0]
    else parts[0] + sep + Join(parts[1..], sep)
  }

  // ---------------------------------------------------------------------------
  // strings.ReplaceAll
  // ---------------------------------------------------------------------------

  /** `strings.ReplaceAll(s, pattern, repl)`: the leftmost non-overlapping occurrences
      of a non-empty pattern are replaced; an empty pattern matches before every
      character and once more at the end. */
  function ReplaceAll(s: string, pattern: string, repl: string): string
  {
    if pattern == "" then InsertEverywhere(s, repl) else ReplaceFrom(s, pattern, repl)
  }

  /** What `strings.ReplaceAll` does with an empty pattern. */
  function InsertEverywhere(s: string, repl: string): (r: string)
    ensures |r| == |s| + (|s| + 1) * |repl|
    ensures r[..|repl|] == repl && r[|r| - |repl|..] == repl
  {
    if s == [] then repl
    else repl + [s[0]] + InsertEverywhere(s[1..], repl)
  }

  /** Each character of `s` as a one-character string. */
  function Chars(s: string): (pieces: seq<string>)
    ensures |pieces| == |s|
    ensures forall i :: 0 <= i < |s| ==> pieces[i] == [s[i]]
  {
    seq(|s|, i requires 0 <= i < |s| => [s[i]])
  }

  /** With an empty pattern the replacement goes between every two characters
      and at both ends: the characters, each its own piece, joined by it and
      framed by it. */
  lemma {:induction false} InsertEverywhereIsJoin(s: string, repl: string)
    ensures InsertEverywhere(s, repl) == if s == [] then repl else repl + Join(Chars(s), repl) + repl
    decreases |s|
  {
    if |s| == 1 {
      assert Chars(s) == [[s[0]]];
      assert s[1..] == [];
    } else if |s| > 1 {
      var tail := s[1..];
      InsertEverywhereIsJoin(tail, repl);
      JoinChars(s, repl);
      Reframe(repl, [s[0]], Join(Chars(tail), repl));
    }
  }

  /** Joining the characters of a string of two or more peels off the first. */
  lemma JoinChars(s: string, sep: string)
    requires |s| > 1
    ensures Join(Chars(s), sep) == [s[0]] + sep + Join(Chars(s[1..]), sep)
  {
    assert Chars(s)[1..] == Chars(s[1..]);
  }

  lemma Reframe(r: string, c: string, middle: string)
    ensures r + c + (r + middle + r) == r + (c + r + middle) + r
  {
  }

  /** The non-empty-pattern case, scanning left to right. */
  function ReplaceFrom(s: string, pattern: string, repl: string): string
    requires pattern != ""
    decreases |s|
  {
    if |s| < |pattern| then s
    else if s[..|pattern|] == pattern then repl + ReplaceFrom(s[|pattern|..], pattern, repl)
    else [s[0]] + ReplaceFrom(s[1..], pattern, repl)
  }

  /** `strings.Split` for a non-empty separator: the pieces between the leftmost
      non-overlapping occurrences of `sep`. */
  function Split(s: string, sep: string): (parts: seq<string>)
    requires sep != ""
    ensures |parts| >= 1
    decreases |s|
  {
    if |s| < |sep| then [s]
    else if s[..|sep|] == sep then [""] + Split(s[|sep|..], sep)
    else
      var rest := Split(s[1..], sep);
      [[s[0]] + rest[0]] + rest[1..]
  }

  /** Replacing occurrences is splitting at them and joining with the replacement. */
  lemma {:induction false} ReplaceIsJoinOfSplit(s: string, pattern: string, repl: string)
    requires pattern != ""
    ensures ReplaceFrom(s, pattern, repl) == Join(Split(s, pattern), repl)
    decreases |s|
  {
    if |s| < |pattern| {
    } else if s[..|pattern|] == pattern {
      ReplaceIsJoinOfSplit(s[|pattern|..], pattern, repl);
      var rest := Split(s[|pattern|..], pattern);
      assert Split(s, pattern) == [""] + rest;
      assert ([""] + rest)[1..] == rest;
    } else {
      ReplaceIsJoinOfSplit(s[1..], pattern, repl);
      var rest := Split(s[1..], pattern);
      JoinGrown(s[0], rest, repl);
    }
  }

  /** Growing the first piece by one character grows the joined string by it. */
  lemma JoinGrown(c: char, pieces: seq<string>, sep: string)
    requires |pieces| >= 1
    ensures Join([[c] + pieces[0]] + pieces[1..], sep) == [c] + Join(pieces, sep)
  {
    var grown := [[c] + pieces[0]] + pieces[1..];
    if |pieces| > 1 {
      assert grown[1..] == pieces[1..];
    }
  }

  /** Replacing a pattern by itself changes nothing. */
  lemma {:induction false} ReplaceWithItself(s: string, pattern: string)
    requires pattern != ""
    ensures ReplaceFrom(s, pattern, pattern) == s
    decreases |s|
  {
    if |s| < |pattern| {
    } else if s[..|pattern|] == pattern {
      ReplaceWithItself(s[|pattern|..], pattern);
      assert s == s[..|pattern|] + s[|pattern|..];
    } else {
      ReplaceWithItself(s[1..], pattern);
      assert s == [s[0]] + s[1..];
    }
  }

  /** Joining the pieces of a split with the separator gives back the string. */
  lemma SplitJoinRoundTrip(s: string, sep: string)
    requires sep != ""
    ensures Join(Split(s, sep), sep) == s
  {
    ReplaceIsJoinOfSplit(s, sep, sep);
    ReplaceWithItself(s, sep);
  }

  /** No piece of a split contains the separator, and the first piece is a prefix. */
  lemma {:induction false} SplitPiecesAvoidSeparator(s: string, sep: string)
    requires sep != ""
    ensures forall i :: 0 <= i < |Split(s, sep)| ==> !Contains(Split(s, sep)[i], sep)
    ensures Split(s, sep)[0] <= s
    decreases |s|
  {
    var parts := Split(s, sep);
    if |s| < |sep| {
      assert parts == [s];
    } else if s[..|sep|] == sep {
      var tail := s[|sep|..];
      SplitPiecesAvoidSeparator(tail, sep);
      var rest := Split(tail, sep);
      assert parts == [""] + rest;
      forall i | 0 <= i < |parts|
        ensures !Contains(parts[i], sep)
      {
        if i > 0 {
          assert parts[i] == rest[i - 1];
        }
      }
    } else {
      SplitPiecesAvoidSeparator(s[1..], sep);
      var rest := Split(s[1..], sep);
      var first := [s[0]] + rest[0];
      assert parts == [first] + rest[1..];
      assert s == [s[0]] + s[1..];
      assert first <= s;
      GrownPieceAvoids(s, rest[0], sep);
      forall i | 0 <= i < |parts|
        ensures !Contains(parts[i], sep)
      {
        if i > 0 {
          assert parts[i] == rest[i];
        }
      }
    }
  }

  /** A piece grown by the string's first character still avoids the separator
      when the separator does not start the string. */
  lemma GrownPieceAvoids(s: string, piece: string, sep: string)
    requires |s| >= |sep| > 0 && s[..|sep|] != sep
    requires piece <= s[1..] && !Contains(piece, sep)
    ensures !Contains([s[0]] + piece, sep)
  {
    var first := [s[0]] + piece;
    forall j: nat | j <= |first|
      ensures !HasAt(first, sep, j)
    {
      if j == 0 {
        if |sep| <= |first| {
          assert first[..|sep|] == s[..|sep|];
        }
      } else if j + |sep| <= |first| {
        assert first[j..j + |sep|] == piece[j - 1..j - 1 + |sep|];
        assert !HasAt(piece, sep, j - 1);
      }
    }
  }

  /** When a split yields several pieces, the separator follows the first piece. */
  lemma SplitFindsSeparator(s: string, sep: string)
    requires sep != ""
    ensures |Split(s, sep)| > 1 ==> HasAt(s, sep, |Split(s, sep)[0]|)
  {
    SplitJoinRoundTrip(s, sep);
    var parts := Split(s, sep);
    if |parts| > 1 {
      assert Join(parts, sep) == parts[0] + sep + Join(parts[1..], sep);
    }
  }

  /** A string without the pattern is left as it is. */
  lemma ReplaceAbsentPattern(s: string, pattern: string, repl: string)
    requires pattern != "" && !Contains(s, pattern)
    ensures ReplaceAll(s, pattern, repl) == s
  {
    SplitFindsSeparator(s, pattern);
    SplitJoinRoundTrip(s, pattern);
    ReplaceIsJoinOfSplit(s, pattern, repl);
  }

  // ---------------------------------------------------------------------------
  // Searching
  // ---------------------------------------------------------------------------

  /** Leftmost occurrence of `p` at or after `from`, or -1. */
  function IndexFrom(s: string, p: string, from: nat): (r: int)
    requires from <= |s|
    ensures r == -1 || (from <= r <= |s| && HasAt(s, p, r))
    ensures r == -1 ==> forall j: nat :: from <= j <= |s| ==> !HasAt(s, p, j)
    ensures r >= 0 ==> forall j: nat :: from <= j < r ==> !HasAt(s, p, j)
    decreases |s| - from
  {
    if HasAt(s, p, from) then from
    else if from == |s| then -1
    else IndexFrom(s, p, from + 1)
  }

  /** `strings.Index`. */
  function IndexOf(s: string, p: string): (r: int)
    ensures r == -1 <==> !Contains(s, p)
    ensures r >= 0 ==> HasAt(s, p, r) && forall j: nat :: j < r ==> !HasAt(s, p, j)
  {
    IndexFrom(s, p, 0)
  }

  /** Position of the last `c` in `s`, or -1. */
  function LastIndexOf(s: string, c: char): (r: int)
    ensures -1 <= r < |s|
    ensures r >= 0 ==> s[r] == c
    ensures forall j :: r < j < |s| ==> s[j] != c
    decreases |s|
  {
    if |s| == 0 then -1
    else if s[|s| - 1] == c then |s| - 1
    else LastIndexOf(s[..|s| - 1], c)
  }

  // ---------------------------------------------------------------------------
  // Decimal integers (fmt's %d)
  // ---------------------------------------------------------------------------

  predicate IsDigit(c: char)
  {
    '0' <= c <= '9'
  }

  predicate AllDigits(s: string)
  {
    forall i :: 0 <= i < |s| ==> IsDigit(s[i])
  }

  predicate IsDecimal(s: string)
  {
    (|s| > 0 && s[0] == '-' && AllDigits(s[1..])) || AllDigits(s)
  }

  function DigitChar(d: nat): (c: char)
    requires d < 10
    ensures IsDigit(c) && c as int - '0' as int == d
  {
    ('0' as int + d) as char
  }

  function NatToString(n: nat): (s: string)
    ensures |s| >= 1 && AllDigits(s)
    decreases n
  {
    if n < 10 then [DigitChar(n)] else NatToString(n / 10) + [DigitChar(n % 10)]
  }

  /** `fmt.Sprintf("%d", i)`. */
  function IntToString(i: int): string
  {
    if i < 0 then "-" + NatToString(-i) else NatToString(i)
  }

  function ParseNat(s: string): nat
    requires AllDigits(s)
  {
    if s == [] then 0 else ParseNat(s[..|s| - 1]) * 10 + (s[|s| - 1] as int - '0' as int)
  }

  function ParseInt(s: string): int
    requires IsDecimal(s)
  {
    if |s| > 0 && s[0] == '-' then -(ParseNat(s[1..]) as int) else ParseNat(s)
  }

  lemma {:induction false} NatRoundTrip(n: nat)
    ensures ParseNat(NatToString(n)) == n
    decreases n
  {
    var s := NatToString(n);
    if n < 10 {
      assert s[..|s| - 1] == [];
    } else {
      NatRoundTrip(n / 10);
      assert s[..|s| - 1] == NatToString(n / 10);
    }
  }

  /** `%d` output is a decimal numeral, without colons, that parses back to the number. */
  lemma IntRoundTrip(i: int)
    ensures IsDecimal(IntToString(i))
    ensures ParseInt(IntToString(i)) == i
    ensures ':' !in IntToString(i)
  {
    if i < 0 {
      var digits := NatToString(-i);
      NatRoundTrip(-i);
      assert ("-" + digits)[1..] == digits;
      assert forall k :: 0 <= k < |digits| ==> digits[k] != ':';
    } else {
      NatRoundTrip(i);
      assert forall k :: 0 <= k < |NatToString(i)| ==> NatToString(i)[k] != ':';
    }
  }
}
