/** `isValidPostcode`: the page's `VIC_POSTCODE` pattern, `/^3\d\d\d$/`, tested against the input. */
module Postcode {

  /** One single-character atom of an anchored pattern: a literal character or `\d`. */
  datatype Atom = Literal(c: char) | Digit

  /** `\d` in JavaScript: `[0-9]`. */
  predicate IsAsciiDigit(ch: char)
  {
    '0' <= ch <= '9'
  }

  predicate AtomMatches(a: Atom, ch: char)
  {
    match a
    case Literal(c) => ch == c
    case Digit => IsAsciiDigit(ch)
  }

  /** `^a1 a2 ... an$` without the `m` flag: the atoms match the whole input, one character each. */
  predicate MatchesWhole(pattern: seq<Atom>, s: string)
  {
    if pattern == [] then s == []
    else s != [] && AtomMatches(pattern[0], s[0]) && MatchesWhole(pattern[1..], s[1..])
  }

  const VicPostcode: seq<Atom> := [Literal('3'), Digit, Digit, Digit]

  predicate IsValidPostcode(s: string)
  {
    MatchesWhole(VicPostcode, s)
  }

  /** An anchored pattern of single-character atoms matches exactly the strings of its
      length whose every character matches the atom at the same position. */
  lemma {:induction false} MatchesWholePointwise(pattern: seq<Atom>, s: string)
    ensures MatchesWhole(pattern, s) <==>
      |s| == |pattern| && forall i :: 0 <= i < |s| ==> AtomMatches(pattern[i], s[i])
  {
    if pattern != [] && s != [] {
      MatchesWholePointwise(pattern[1..], s[1..]);
      if |s| == |pattern| && forall i :: 0 <= i < |s| ==> AtomMatches(pattern[i], s[i]) {
        forall i | 0 <= i < |s| - 1
          ensures AtomMatches(pattern[1..][i], s[1..][i])
        {
          assert AtomMatches(pattern[i + 1], s[i + 1]);
        }
      }
    }
  }

  /** A postcode is valid exactly when it has four characters, the first `3` and the
      other three ASCII digits. */
  lemma ValidPostcodeCharacters(s: string)
    ensures IsValidPostcode(s) <==>
      |s| == 4 && s[0] == '3' && IsAsciiDigit(s[1]) && IsAsciiDigit(s[2]) && IsAsciiDigit(s[3])
  {
    MatchesWholePointwise(VicPostcode, s);
    if |s| == 4 && s[0] == '3' && IsAsciiDigit(s[1]) && IsAsciiDigit(s[2]) && IsAsciiDigit(s[3]) {
      forall i | 0 <= i < 4
        ensures AtomMatches(VicPostcode[i], s[i])
      {
      }
    }
  }

  /** The input field's placeholder postcode is accepted; a non-Victorian code, a letter, a short
      code, a long code and a trailing newline are rejected. */
  lemma PostcodeExamples()
    ensures IsValidPostcode("3068")
    ensures !IsValidPostcode("2000")
    ensures !IsValidPostcode("30a8")
    ensures !IsValidPostcode("306")
    ensures !IsValidPostcode("30680")
    ensures !IsValidPostcode("3068\n")
    ensures !IsValidPostcode("")
  {
  }
}
