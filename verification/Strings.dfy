/** ASCII case folding and trimming (strings.ToUpper, strings.ToLower, strings.TrimSpace). */
module Strings {

  function UpperChar(c: char): char { if 'a' <= c <= 'z' then ((c as int) - 32) as char else c }

  function LowerChar(c: char): char { if 'A' <= c <= 'Z' then ((c as int) + 32) as char else c }

  function Upper(s: string): (r: string)
    ensures |r| == |s|
    ensures forall i :: 0 <= i < |s| ==> r[i] == UpperChar(s[i])
  {
    seq(|s|, i requires 0 <= i < |s| => UpperChar(s[i]))
  }

  function Lower(s: string): (r: string)
    ensures |r| == |s|
    ensures forall i :: 0 <= i < |s| ==> r[i] == LowerChar(s[i])
  {
    seq(|s|, i requires 0 <= i < |s| => LowerChar(s[i]))
  }

  predicate IsSpace(c: char) { c == ' ' || c == '\t' || c == '\n' || c == '\r' }

  function TrimSpace(s: string): string
    decreases |s|
  {
    if s == "" then s
    else if IsSpace(s[0]) then TrimSpace(s[1..])
    else if IsSpace(s[|s| - 1]) then TrimSpace(s[..|s| - 1])
    else s
  }

  // ----- What folding and trimming mean -----

  /** The same letter in either case, or the same character. */
  predicate SameLetter(a: char, b: char) {
    a == b || ('a' <= a <= 'z' && a as int - b as int == 32) || ('a' <= b <= 'z' && b as int - a as int == 32)
  }

  /** Equal ignoring the case of letters. */
  predicate EqualFold(a: string, b: string) {
    |a| == |b| && forall i :: 0 <= i < |a| ==> SameLetter(a[i], b[i])
  }

  predicate Capitals(s: string) { forall i :: 0 <= i < |s| ==> 'A' <= s[i] <= 'Z' }

  predicate NoCapitals(s: string) { forall i :: 0 <= i < |s| ==> !('A' <= s[i] <= 'Z') }

  predicate NoSmallLetters(s: string) { forall i :: 0 <= i < |s| ==> !('a' <= s[i] <= 'z') }

  lemma UpperFolds(text: string, capitals: string)
    requires Capitals(capitals)
    ensures Upper(text) == capitals <==> EqualFold(text, capitals)
  {
    if Upper(text) == capitals {
      forall i | 0 <= i < |text| ensures SameLetter(text[i], capitals[i]) {
        assert UpperChar(text[i]) == capitals[i];
      }
    }
    if EqualFold(text, capitals) {
      forall i | 0 <= i < |text| ensures Upper(text)[i] == capitals[i] {
        assert SameLetter(text[i], capitals[i]);
      }
      assert Upper(text) == capitals;
    }
  }

  lemma LowerFolds(text: string, small: string)
    requires NoCapitals(small)
    ensures Lower(text) == small <==> EqualFold(text, small)
  {
    if Lower(text) == small {
      forall i | 0 <= i < |text| ensures SameLetter(text[i], small[i]) {
        assert LowerChar(text[i]) == small[i];
      }
    }
    if EqualFold(text, small) {
      forall i | 0 <= i < |text| ensures Lower(text)[i] == small[i] {
        assert SameLetter(text[i], small[i]) && !('A' <= small[i] <= 'Z');
      }
      assert Lower(text) == small;
    }
  }

  lemma FoldAgain(a: string, b: string, capitals: string)
    requires EqualFold(a, b) && EqualFold(a, capitals) && Capitals(capitals)
    ensures EqualFold(b, capitals)
  {
    forall i | 0 <= i < |a| ensures SameLetter(b[i], capitals[i]) {
      assert SameLetter(a[i], b[i]) && SameLetter(a[i], capitals[i]);
    }
  }

  /** Folding keeps every letter and leaves none in the other case. */
  lemma FoldedLetters(s: string)
    ensures EqualFold(Upper(s), s) && NoSmallLetters(Upper(s))
    ensures EqualFold(Lower(s), s) && NoCapitals(Lower(s))
  {
  }

  predicate Blank(s: string) { forall i :: 0 <= i < |s| ==> s[i] in {' ', '\t', '\n', '\r'} }

  predicate Around(s: string, u: string, a: string, b: string) { Blank(a) && Blank(b) && s == a + u + b }

  /** `u` is `s` without the blanks around it. */
  ghost predicate IsTrimmed(s: string, u: string) {
    && (exists a, b :: Around(s, u, a, b))
    && (u != "" ==> u[0] !in {' ', '\t', '\n', '\r'} && u[|u| - 1] !in {' ', '\t', '\n', '\r'})
  }

  lemma BlankInFront(c: char, s: string, u: string)
    requires IsTrimmed(s, u) && IsSpace(c)
    ensures IsTrimmed([c] + s, u)
  {
    var a, b :| Around(s, u, a, b);
    assert [c] + (a + u + b) == [c] + a + u + b;
    assert Around([c] + s, u, [c] + a, b);
  }

  lemma BlankBehind(s: string, c: char, u: string)
    requires IsTrimmed(s, u) && IsSpace(c)
    ensures IsTrimmed(s + [c], u)
  {
    var a, b :| Around(s, u, a, b);
    assert a + u + b + [c] == a + u + (b + [c]);
    assert Around(s + [c], u, a, b + [c]);
  }

  lemma {:induction false} TrimmedExactly(s: string)
    ensures IsTrimmed(s, TrimSpace(s))
    decreases |s|
  {
    var n := |s| - 1;
    if s == "" || (!IsSpace(s[0]) && !IsSpace(s[n])) {
      assert s == "" + s + "";
      assert Around(s, s, "", "");
    } else if IsSpace(s[0]) {
      TrimmedExactly(s[1..]);
      BlankInFront(s[0], s[1..], TrimSpace(s));
      assert s == [s[0]] + s[1..];
    } else {
      TrimmedExactly(s[..n]);
      BlankBehind(s[..n], s[n], TrimSpace(s));
      assert s == s[..n] + [s[n]];
    }
  }
}
