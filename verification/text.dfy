/** String primitives the chat code relies on: JavaScript's `trim()` as
    used by the blank-input gates, Python's `str.lower()` restricted to
    ASCII, and Python's substring test `needle in hay`. */
module Text {

  /** The code points `String.prototype.trim` strips: the ECMAScript
      WhiteSpace set (TAB, VT, FF, ZWNBSP and the Unicode space separators)
      and the LineTerminator set (LF, CR, LS, PS). */
  predicate IsWhitespace(c: char)
  {
    || c == '\t' || c == '\n' || c == '\U{B}' || c == '\U{C}' || c == '\r'
    || c == ' ' || c == '\U{A0}' || c == '\U{1680}'
    || ('\U{2000}' <= c <= '\U{200A}')
    || c == '\U{2028}' || c == '\U{2029}' || c == '\U{202F}' || c == '\U{205F}'
    || c == '\U{3000}' || c == '\U{FEFF}'
  }

  /** Drops the leading whitespace of `s`. */
  function TrimStart(s: string): (r: string)
    ensures |r| <= |s| && r == s[|s| - |r|..]
    ensures forall i :: 0 <= i < |s| - |r| ==> IsWhitespace(s[i])
    ensures r == [] || !IsWhitespace(r[0])
  {
    if |s| > 0 && IsWhitespace(s[0]) then TrimStart(s[1..]) else s
  }

  /** Drops the trailing whitespace of `s`. */
  function TrimEnd(s: string): (r: string)
    ensures |r| <= |s| && r == s[..|r|]
    ensures forall i :: |r| <= i < |s| ==> IsWhitespace(s[i])
    ensures r == [] || !IsWhitespace(r[|r| - 1])
  {
    if |s| > 0 && IsWhitespace(s[|s| - 1]) then TrimEnd(s[..|s| - 1]) else s
  }

  /** `s.trim()`: what is left of `s` once its leading and trailing
      whitespace is cut; it neither starts nor ends with whitespace. */
  function Trim(s: string): (r: string)
    ensures |r| <= |s|
    ensures r == [] || (!IsWhitespace(r[0]) && !IsWhitespace(r[|r| - 1]))
  {
    TrimEnd(TrimStart(s))
  }

  /** The trimmed string is a contiguous piece of `s`, and everything cut
      away on either side of it is whitespace. */
  lemma TrimIsSlice(s: string)
    ensures var lo := |s| - |TrimStart(s)|;
      && lo + |Trim(s)| <= |s|
      && Trim(s) == s[lo..lo + |Trim(s)|]
      && (forall i :: 0 <= i < lo ==> IsWhitespace(s[i]))
      && (forall i :: lo + |Trim(s)| <= i < |s| ==> IsWhitespace(s[i]))
  {
    var t := TrimStart(s);
    var r := TrimEnd(t);
    assert Trim(s) == r;
    SuffixPrefixSlice(s, t, r);
  }

  /** A prefix `r` of a suffix `t` of `s` is the slice of `s` that starts
      where `t` does; what `t` lost from its end is what `r` leaves out. */
  lemma SuffixPrefixSlice(s: string, t: string, r: string)
    requires |t| <= |s| && t == s[|s| - |t|..]
    requires |r| <= |t| && r == t[..|r|]
    requires forall i :: |r| <= i < |t| ==> IsWhitespace(t[i])
    ensures var lo := |s| - |t|;
      && r == s[lo..lo + |r|]
      && (forall i :: lo + |r| <= i < |s| ==> IsWhitespace(s[i]))
  {
    var lo := |s| - |t|;
    forall i | lo + |r| <= i < |s|
      ensures IsWhitespace(s[i])
    {
      assert s[i] == t[i - lo];
    }
  }

  /** JavaScript's `!text.trim()`: the trimmed string is empty, hence falsy. */
  predicate IsBlank(s: string)
  {
    Trim(s) == []
  }

  /** A string is blank exactly when every character of it is whitespace. */
  lemma BlankIffAllWhitespace(s: string)
    ensures IsBlank(s) <==> forall i :: 0 <= i < |s| ==> IsWhitespace(s[i])
  {
    var t := TrimStart(s);
    if t != [] {
      assert t[0] == s[|s| - |t|];
      assert TrimEnd(t) != [] by {
        assert !IsWhitespace(t[0]);
      }
    }
  }

  /** The empty string is blank, so every non-blank string is non-empty. */
  lemma NonBlankIsNonEmpty(s: string)
    requires !IsBlank(s)
    ensures s != [] && 0 < |Trim(s)|
  {
  }

  /** Python's `str.lower()` on one character, restricted to ASCII. */
  function LowerChar(c: char): (r: char)
    ensures 'A' <= c <= 'Z' ==> 'a' <= r <= 'z'
    ensures !('A' <= c <= 'Z') ==> r == c
    ensures !('A' <= r <= 'Z')
  {
    if 'A' <= c <= 'Z' then (c as int - 'A' as int + 'a' as int) as char else c
  }

  /** `s.lower()` with ASCII case mapping: same length, every character
      mapped on its own. */
  function Lower(s: string): (r: string)
    ensures |r| == |s|
    ensures forall i :: 0 <= i < |s| ==> r[i] == LowerChar(s[i])
  {
    if s == [] then [] else [LowerChar(s[0])] + Lower(s[1..])
  }

  /** Lower-casing an already lower-cased string changes nothing. */
  lemma LowerIdempotent(s: string)
    ensures Lower(Lower(s)) == Lower(s)
  {
    var l := Lower(s);
    forall i | 0 <= i < |l|
      ensures Lower(l)[i] == l[i]
    {
      assert l[i] == LowerChar(s[i]);
    }
  }

  /** `needle` sits in `hay` starting at index `i`. */
  predicate OccursAt(needle: string, hay: string, i: int)
  {
    0 <= i <= |hay| - |needle| && hay[i..i + |needle|] == needle
  }

  /** Python's `needle in hay` on strings: a contiguous occurrence anywhere,
      not a whole-word match. */
  ghost predicate IsSubstring(needle: string, hay: string)
  {
    exists i :: OccursAt(needle, hay, i)
  }

  /** An occurrence past the first position of `hay` is an occurrence in
      `hay[1..]`, one position earlier, and back. */
  lemma ShiftOccurrence(needle: string, hay: string)
    requires |hay| > 0 && !OccursAt(needle, hay, 0)
    ensures IsSubstring(needle, hay[1..]) <==> IsSubstring(needle, hay)
  {
    if IsSubstring(needle, hay[1..]) {
      var j :| OccursAt(needle, hay[1..], j);
      assert hay[1..][j..j + |needle|] == hay[j + 1..j + 1 + |needle|];
      assert OccursAt(needle, hay, j + 1);
    }
    if IsSubstring(needle, hay) {
      var i :| OccursAt(needle, hay, i);
      assert i != 0;
      assert hay[1..][i - 1..i - 1 + |needle|] == hay[i..i + |needle|];
      assert OccursAt(needle, hay[1..], i - 1);
    }
  }

  /** The executable substring search: tries each start position of `hay`
      from left to right. */
  function Contains(needle: string, hay: string): (r: bool)
    ensures r <==> IsSubstring(needle, hay)
    decreases |hay|
  {
    if |hay| < |needle| then
      false
    else if hay[..|needle|] == needle then
      assert OccursAt(needle, hay, 0);
      true
    else
      ShiftOccurrence(needle, hay);
      Contains(needle, hay[1..])
  }

  /** A needle whose first character never appears in `hay` does not occur
      in it. */
  lemma FirstCharAbsent(needle: string, hay: string)
    requires |needle| > 0
    requires forall i :: 0 <= i < |hay| ==> hay[i] != needle[0]
    ensures !IsSubstring(needle, hay)
  {
    forall i | 0 <= i <= |hay| - |needle|
      ensures !OccursAt(needle, hay, i)
    {
      assert hay[i..i + |needle|][0] == hay[i];
    }
  }
}
