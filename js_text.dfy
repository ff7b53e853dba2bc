/** `String.prototype.trim` as ECMA-262 defines it: it strips, from both
    ends, the code points of the WhiteSpace and LineTerminator productions. */
module JsText {

  /** WhiteSpace (TAB, VT, FF, SPACE, NBSP, ZWNBSP and the other space
      separators of category Zs) and LineTerminator (LF, CR, LS, PS). */
  const Trimmable: set<char> := {
    '\U{0009}', '\U{000A}', '\U{000B}', '\U{000C}', '\U{000D}',
    '\U{0020}', '\U{00A0}', '\U{1680}',
    '\U{2000}', '\U{2001}', '\U{2002}', '\U{2003}', '\U{2004}', '\U{2005}',
    '\U{2006}', '\U{2007}', '\U{2008}', '\U{2009}', '\U{200A}',
    '\U{2028}', '\U{2029}', '\U{202F}', '\U{205F}', '\U{3000}', '\U{FEFF}'
  }

  predicate IsTrimmable(c: char) {
    c in Trimmable
  }

  /** Every character of `s` is trimmable. */
  predicate AllTrimmable(s: string) {
    forall k :: 0 <= k < |s| ==> IsTrimmable(s[k])
  }

  /** `s[b..e]` is what is left of `s` once its trimmable prefix and suffix
      are cut off: the characters outside are trimmable, and a non-empty
      middle neither starts nor ends with a trimmable character. */
  predicate IsTrimCut(s: string, b: int, e: int) {
    && 0 <= b <= e <= |s|
    && (forall k :: 0 <= k < b ==> IsTrimmable(s[k]))
    && (forall k :: e <= k < |s| ==> IsTrimmable(s[k]))
    && (b < e ==> !IsTrimmable(s[b]) && !IsTrimmable(s[e - 1]))
  }

  /** The index of the first character at or after `i` that is kept. */
  function FirstKept(s: string, i: nat): (b: nat)
    requires i <= |s|
    requires forall k :: 0 <= k < i ==> IsTrimmable(s[k])
    ensures i <= b <= |s|
    ensures forall k :: 0 <= k < b ==> IsTrimmable(s[k])
    ensures b < |s| ==> !IsTrimmable(s[b])
    decreases |s| - i
  {
    if i < |s| && IsTrimmable(s[i]) then FirstKept(s, i + 1) else i
  }

  /** The index just past the last character before `j`, and not before
      `lo`, that is kept. */
  function EndKept(s: string, lo: nat, j: nat): (e: nat)
    requires lo <= j <= |s|
    requires forall k :: j <= k < |s| ==> IsTrimmable(s[k])
    ensures lo <= e <= j
    ensures forall k :: e <= k < |s| ==> IsTrimmable(s[k])
    ensures lo < e ==> !IsTrimmable(s[e - 1])
  {
    if lo < j && IsTrimmable(s[j - 1]) then EndKept(s, lo, j - 1) else j
  }

  /** `s.trim()`. */
  function Trim(s: string): (r: string)
    ensures |r| <= |s|
    ensures r == [] <==> AllTrimmable(s)
    ensures r != [] ==> !IsTrimmable(r[0]) && !IsTrimmable(r[|r| - 1])
  {
    var b := FirstKept(s, 0);
    var e := EndKept(s, b, |s|);
    assert IsTrimCut(s, b, e);
    s[b..e]
  }

  /** `Trim(s)` is a cut of `s` as `IsTrimCut` describes it ... */
  lemma TrimHasCut(s: string) returns (b: int, e: int)
    ensures IsTrimCut(s, b, e) && Trim(s) == s[b..e]
  {
    b := FirstKept(s, 0);
    e := EndKept(s, b, |s|);
  }

  /** ... and the only one: every such cut leaves `Trim(s)`. */
  lemma TrimIsTheCut(s: string, b: int, e: int)
    requires IsTrimCut(s, b, e)
    ensures s[b..e] == Trim(s)
  {
  }

  /** Trimming twice is trimming once. */
  lemma TrimIdempotent(s: string)
    ensures Trim(Trim(s)) == Trim(s)
  {
  }
}
