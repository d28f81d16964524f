/**
 * The browser form's phone check, the regular expression /^1[3-9]\d{9}$/
 * (src/sections/Footer.tsx:36).  It has no alternation and no open-ended
 * repetition, so it is a fixed sequence of character classes that must
 * match the whole input, one class per character.
 */
module PhonePattern {
  import opened Text

  /** One regular-expression atom that matches a single character. */
  datatype CharClass = Lit(c: char) | Range(lo: char, hi: char)

  predicate InClass(c: char, k: CharClass) {
    match k
    case Lit(d) => c == d
    case Range(lo, hi) => lo <= c <= hi
  }

  /** `\d` without the `u` flag is exactly [0-9]. */
  const Digit: CharClass := Range('0', '9')

  /** `k{n}`: the atom `k` repeated `n` times. */
  function Repeat(k: CharClass, n: nat): (p: seq<CharClass>)
    ensures |p| == n
    ensures forall i :: 0 <= i < n ==> p[i] == k
  {
    if n == 0 then [] else [k] + Repeat(k, n - 1)
  }

  /** `1[3-9]\d{9}` */
  const MobilePattern: seq<CharClass> := [Lit('1'), Range('3', '9')] + Repeat(Digit, 9)

  /** `^p$`: the anchored pattern consumes the input one atom per character, to the end. */
  predicate FullMatch(p: seq<CharClass>, s: string) {
    if p == [] then s == []
    else s != [] && InClass(s[0], p[0]) && FullMatch(p[1..], s[1..])
  }

  /** An anchored atom sequence matches exactly the strings of its length whose every character is in its class. */
  lemma {:induction false} FullMatchPointwise(p: seq<CharClass>, s: string)
    ensures FullMatch(p, s) <==> |p| == |s| && forall i :: 0 <= i < |s| ==> InClass(s[i], p[i])
  {
    if p != [] && s != [] {
      FullMatchPointwise(p[1..], s[1..]);
      if |p| == |s| && forall i :: 0 <= i < |s| ==> InClass(s[i], p[i]) {
        forall i | 0 <= i < |s| - 1 ensures InClass(s[1..][i], p[1..][i]) {
          assert InClass(s[i + 1], p[i + 1]);
        }
      }
    }
  }

  /** The mainland-China mobile number shape the regular expression stands for. */
  predicate IsMobileNumber(s: string) {
    && |s| == 11
    && s[0] == '1'
    && '3' <= s[1] <= '9'
    && forall i :: 2 <= i < 11 ==> IsDigit(s[i])
  }

  /** /^1[3-9]\d{9}$/ accepts a string exactly when it is eleven characters of that shape. */
  lemma MobilePatternMeaning(s: string)
    ensures FullMatch(MobilePattern, s) <==> IsMobileNumber(s)
  {
    FullMatchPointwise(MobilePattern, s);
    assert forall i :: 2 <= i < 11 ==> MobilePattern[i] == Digit;
  }

  /** `phoneRegex.test(s)` for the pattern of line 36. */
  function TestMobile(s: string): (b: bool)
    ensures b <==> IsMobileNumber(s)
    ensures b ==> |s| == 11 && AllDigits(s)
  {
    MobilePatternMeaning(s);
    FullMatch(MobilePattern, s)
  }
}
