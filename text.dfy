/**
 * Whitespace trimming of free text, as Python's `str.strip()` with no
 * argument performs it: leading and trailing characters for which
 * `str.isspace()` holds are removed.
 */
module Text {

  /** The characters Python's `str.isspace()` accepts. */
  predicate IsSpace(c: char): (r: bool)
    ensures c == ' ' || c == '\t' || c == '\n' || c == '\r' ==> r
    ensures r ==> !('0' <= c <= '9' || 'A' <= c <= 'Z' || 'a' <= c <= 'z' || c == '_')
  {
    || ('\t' <= c <= '\r')            // tab, line feed, vertical tab, form feed, carriage return
    || ('\U{1C}' <= c <= ' ')          // the four information separators and the space
    || c == '\U{85}' || c == '\U{A0}' || c == '\U{1680}'
    || ('\U{2000}' <= c <= '\U{200A}')
    || c == '\U{2028}' || c == '\U{2029}' || c == '\U{202F}' || c == '\U{205F}' || c == '\U{3000}'
  }

  /** The index of the first non-whitespace character of `s` at or after `i`, or `|s|`. */
  function SkipSpaces(s: string, i: nat): (k: nat)
    requires i <= |s|
    ensures i <= k <= |s|
    ensures forall m :: i <= m < k ==> IsSpace(s[m])
    ensures k < |s| ==> !IsSpace(s[k])
    decreases |s| - i
  {
    if i == |s| || !IsSpace(s[i]) then i else SkipSpaces(s, i + 1)
  }

  /** The end of `s[lo..j]` once its trailing whitespace is cut off. */
  function SkipSpacesBack(s: string, lo: nat, j: nat): (k: nat)
    requires lo <= j <= |s|
    ensures lo <= k <= j
    ensures forall m :: k <= m < j ==> IsSpace(s[m])
    ensures lo < k ==> !IsSpace(s[k - 1])
    decreases j
  {
    if j == lo || !IsSpace(s[j - 1]) then j else SkipSpacesBack(s, lo, j - 1)
  }

  /**
   * `s.strip()`: the slice of `s` that neither begins nor ends with
   * whitespace, everything cut off on either side being whitespace.
   */
  function Strip(s: string): (r: string)
    ensures |r| <= |s|
    ensures r == [] || (!IsSpace(r[0]) && !IsSpace(r[|r| - 1]))
    ensures exists lo, hi :: 0 <= lo <= hi <= |s| && r == s[lo..hi]
                             && (forall i :: 0 <= i < lo ==> IsSpace(s[i]))
                             && (forall i :: hi <= i < |s| ==> IsSpace(s[i]))
  {
    var lo := SkipSpaces(s, 0);
    var hi := SkipSpacesBack(s, lo, |s|);
    assert lo < hi ==> s[lo..hi][0] == s[lo] && s[lo..hi][hi - lo - 1] == s[hi - 1];
    s[lo..hi]
  }

  /** A description is blank exactly when every one of its characters is whitespace. */
  lemma StripEmptyIffBlank(s: string)
    ensures Strip(s) == [] <==> forall i :: 0 <= i < |s| ==> IsSpace(s[i])
  {
    var r := Strip(s);
    var lo, hi :| 0 <= lo <= hi <= |s| && r == s[lo..hi]
                  && (forall i :: 0 <= i < lo ==> IsSpace(s[i]))
                  && (forall i :: hi <= i < |s| ==> IsSpace(s[i]));
    if r != [] {
      assert r[0] == s[lo];
    }
  }

  /** Python's ordering of strings: lexicographic by code point. */
  predicate LexLess(s: string, t: string)
    decreases |s|
  {
    if s == [] then t != []
    else if t == [] then false
    else s[0] < t[0] || (s[0] == t[0] && LexLess(s[1..], t[1..]))
  }

  /** LexLess is a strict total order: irreflexive, asymmetric and total on distinct strings. */
  lemma {:induction false} LexLessStrictTotal(s: string, t: string)
    ensures !LexLess(s, s)
    ensures LexLess(s, t) ==> !LexLess(t, s)
    ensures s != t ==> LexLess(s, t) || LexLess(t, s)
    decreases |s|
  {
    if s != [] {
      LexLessStrictTotal(s[1..], s[1..]);
    }
    if s != [] && t != [] {
      LexLessStrictTotal(s[1..], t[1..]);
      if s[0] == t[0] && s != t {
        assert s == [s[0]] + s[1..] && t == [t[0]] + t[1..];
      }
    }
  }
}
