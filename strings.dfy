/**
 * Python's `str.strip()` with no argument, as the login greeting uses it. The
 * trimming functions take the whitespace class as a parameter; `IsSpace` is
 * the class Python's `str.isspace()` uses.
 */
module Strings {
  /** The characters for which Python's `str.isspace()` holds. */
  const SpaceChars: set<char> := {
    '\t', '\n', '\U{B}', '\U{C}', '\r', '\U{1C}', '\U{1D}', '\U{1E}', '\U{1F}', ' ',
    '\U{85}', '\U{A0}', '\U{1680}',
    '\U{2000}', '\U{2001}', '\U{2002}', '\U{2003}', '\U{2004}', '\U{2005}',
    '\U{2006}', '\U{2007}', '\U{2008}', '\U{2009}', '\U{200A}',
    '\U{2028}', '\U{2029}', '\U{202F}', '\U{205F}', '\U{3000}'}

  predicate IsSpace(c: char) {
    c in SpaceChars
  }

  /** Scans forward from `start` past whitespace: the index of the first other character, or |s|. */
  function SkipForward(s: string, space: char -> bool, start: nat): (lo: nat)
    requires start <= |s|
    ensures start <= lo <= |s|
    ensures forall i :: start <= i < lo ==> space(s[i])
    ensures lo < |s| ==> !space(s[lo])
    decreases |s| - start
  {
    if start < |s| && space(s[start]) then SkipForward(s, space, start + 1) else start
  }

  /** Scans backward from `stop` past whitespace, not below `bound`: the end of the last other character. */
  function SkipBackward(s: string, space: char -> bool, bound: nat, stop: nat): (hi: nat)
    requires bound <= stop <= |s|
    ensures bound <= hi <= stop
    ensures forall i :: hi <= i < stop ==> space(s[i])
    ensures hi > bound ==> !space(s[hi - 1])
    decreases stop
  {
    if stop > bound && space(s[stop - 1]) then SkipBackward(s, space, bound, stop - 1) else stop
  }

  /** r is s[lo..hi] and everything outside lo..hi is whitespace. */
  ghost predicate CutFrom(s: string, r: string, lo: int, hi: int, space: char -> bool) {
    && 0 <= lo <= hi <= |s|
    && r == s[lo..hi]
    && (forall i :: 0 <= i < lo ==> space(s[i]))
    && (forall i :: hi <= i < |s| ==> space(s[i]))
  }

  /** `s.strip()`: a slice of s with neither end whitespace; empty exactly when s is all whitespace. */
  function Strip(s: string, space: char -> bool): (r: string)
    ensures exists lo, hi :: CutFrom(s, r, lo, hi, space)
    ensures r == [] || (!space(r[0]) && !space(r[|r| - 1]))
    ensures r == [] <==> forall i :: 0 <= i < |s| ==> space(s[i])
  {
    var lo := SkipForward(s, space, 0);
    var hi := SkipBackward(s, space, lo, |s|);
    assert CutFrom(s, s[lo..hi], lo, hi, space);
    s[lo..hi]
  }

  /** Strip's contract has one solution: any whitespace-trimmed slice with non-space ends is Strip(s). */
  lemma StripUnique(s: string, space: char -> bool, r: string, lo: int, hi: int)
    requires CutFrom(s, r, lo, hi, space)
    requires r == [] || (!space(r[0]) && !space(r[|r| - 1]))
    ensures r == Strip(s, space)
  {
  }
}
