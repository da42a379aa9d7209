/** The two string normalisations the package applies to type names and format names. */
module Strings {

  /** Characters that Go's strings.TrimSpace removes (unicode.IsSpace). */
  predicate IsSpace(c: char)
  {
    c == ' ' || c == '\t' || c == '\n' || c == '\U{B}' || c == '\U{C}' || c == '\r'
    || c == '\U{85}' || c == '\U{A0}' || c == '\U{1680}'
    || ('\U{2000}' <= c <= '\U{200A}')
    || c == '\U{2028}' || c == '\U{2029}' || c == '\U{202F}' || c == '\U{205F}' || c == '\U{3000}'
  }

  /** The upper-case letters the model lower-cases: ASCII A-Z and the Latin-1 letters U+00C0-U+00DE
      other than the multiplication sign U+00D7. */
  predicate IsUpper(c: char)
  {
    ('A' <= c <= 'Z') || ('\U{C0}' <= c <= '\U{DE}' && c != '\U{D7}')
  }

  /** Lower-cases one character: each of these letters maps to its lower-case form, 32 code points up
      (A to a, U+00C9 to U+00E9); every other character is kept. */
  function LowerChar(c: char): (d: char)
    ensures !IsUpper(d)
    ensures !IsUpper(c) ==> d == c
    ensures IsUpper(c) ==> d as int == c as int + 32
    ensures IsSpace(d) <==> IsSpace(c)
  {
    if IsUpper(c) then (c as int + 32) as char else c
  }

  /** A string with no upper-case letter. */
  predicate IsLower(s: string)
  {
    forall i :: 0 <= i < |s| ==> !IsUpper(s[i])
  }

  /** strings.ToLower, restricted to the letters IsUpper names. */
  function ToLower(s: string): (r: string)
    ensures |r| == |s|
  {
    if s == [] then [] else [LowerChar(s[0])] + ToLower(s[1..])
  }

  /** Drops leading white space. */
  function TrimLeft(s: string): (r: string)
    ensures |r| <= |s|
  {
    if s != [] && IsSpace(s[0]) then TrimLeft(s[1..]) else s
  }

  /** Drops trailing white space. */
  function TrimRight(s: string): (r: string)
    ensures |r| <= |s|
  {
    if s != [] && IsSpace(s[|s| - 1]) then TrimRight(s[..|s| - 1]) else s
  }

  /** strings.TrimSpace: drops leading and trailing white space. */
  function TrimSpace(s: string): string
  {
    TrimRight(TrimLeft(s))
  }

  /** A string that neither starts nor ends with white space. */
  predicate IsTrimmed(s: string)
  {
    s == [] || (!IsSpace(s[0]) && !IsSpace(s[|s| - 1]))
  }

  /** The normalisation applied to handler type names and console formats: lower-case, then trim. */
  function Normalize(s: string): (r: string)
    ensures |r| <= |s|
  {
    TrimSpace(ToLower(s))
  }

  /** Lower-casing works character by character. */
  lemma {:induction false} ToLowerPointwise(s: string)
    ensures forall i :: 0 <= i < |s| ==> ToLower(s)[i] == LowerChar(s[i])
  {
    if s != [] {
      ToLowerPointwise(s[1..]);
      assert forall i :: 1 <= i < |s| ==> ToLower(s)[i] == ToLower(s[1..])[i - 1];
    }
  }

  /** TrimLeft keeps a suffix of its input. */
  lemma {:induction false} TrimLeftIsSuffix(s: string)
    ensures TrimLeft(s) == s[|s| - |TrimLeft(s)|..]
  {
    if s != [] && IsSpace(s[0]) {
      TrimLeftIsSuffix(s[1..]);
      assert s[1..][|s| - 1 - |TrimLeft(s)|..] == s[|s| - |TrimLeft(s)|..];
    }
  }

  /** TrimRight keeps a prefix of its input. */
  lemma {:induction false} TrimRightIsPrefix(s: string)
    ensures TrimRight(s) == s[..|TrimRight(s)|]
  {
    if s != [] && IsSpace(s[|s| - 1]) {
      TrimRightIsPrefix(s[..|s| - 1]);
      assert s[..|s| - 1][..|TrimRight(s)|] == s[..|TrimRight(s)|];
    }
  }

  lemma {:induction false} TrimLeftStartsClean(s: string)
    ensures TrimLeft(s) == [] || !IsSpace(TrimLeft(s)[0])
    decreases |s|
  {
    if s != [] && IsSpace(s[0]) {
      TrimLeftStartsClean(s[1..]);
    }
  }

  lemma {:induction false} TrimRightKeepsStart(s: string)
    requires s != [] && !IsSpace(s[0])
    ensures TrimRight(s) != [] && TrimRight(s)[0] == s[0]
    decreases |s|
  {
    if IsSpace(s[|s| - 1]) {
      TrimRightKeepsStart(s[..|s| - 1]);
    }
  }

  lemma {:induction false} TrimRightEndsClean(s: string)
    ensures TrimRight(s) == [] || !IsSpace(TrimRight(s)[|TrimRight(s)| - 1])
    decreases |s|
  {
    if s != [] && IsSpace(s[|s| - 1]) {
      TrimRightEndsClean(s[..|s| - 1]);
    }
  }

  /** TrimSpace leaves neither leading nor trailing white space. */
  lemma TrimSpaceIsTrimmed(s: string)
    ensures IsTrimmed(TrimSpace(s))
  {
    var l := TrimLeft(s);
    TrimLeftStartsClean(s);
    TrimRightEndsClean(l);
    if l != [] {
      TrimRightKeepsStart(l);
    }
  }

  /** A trimmed string is a fixpoint of TrimSpace. */
  lemma TrimSpaceOfTrimmed(s: string)
    requires IsTrimmed(s)
    ensures TrimSpace(s) == s
  {
  }

  /** Lower-casing a string without upper-case letters changes nothing. */
  lemma {:induction false} ToLowerOfLower(s: string)
    requires IsLower(s)
    ensures ToLower(s) == s
  {
    if s != [] {
      ToLowerOfLower(s[1..]);
    }
  }

  /** Normalisation yields a lower-case, trimmed string. */
  lemma NormalizeIsLowerAndTrimmed(s: string)
    ensures IsLower(Normalize(s)) && IsTrimmed(Normalize(s))
  {
    var l := ToLower(s);
    ToLowerPointwise(s);
    TrimSpaceIsTrimmed(l);
    TrimLeftIsSuffix(l);
    TrimRightIsPrefix(TrimLeft(l));
    var t := TrimSpace(l);
    assert t == TrimRight(TrimLeft(l));
    assert forall i :: 0 <= i < |t| ==> t[i] == l[|l| - |TrimLeft(l)| + i];
  }

  /** Normalising twice is normalising once, so case and surrounding spaces never matter twice. */
  lemma NormalizeIdempotent(s: string)
    ensures Normalize(Normalize(s)) == Normalize(s)
  {
    var n := Normalize(s);
    NormalizeIsLowerAndTrimmed(s);
    ToLowerOfLower(n);
    TrimSpaceOfTrimmed(n);
  }

  /** A string that is already lower-case and trimmed normalises to itself. */
  lemma NormalizeOfNormal(s: string)
    requires IsLower(s) && IsTrimmed(s)
    ensures Normalize(s) == s
  {
    ToLowerOfLower(s);
    TrimSpaceOfTrimmed(s);
  }
}
