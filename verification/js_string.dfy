/**
 * JavaScript's `String.prototype.trim`: it removes the leading and trailing
 * characters that ECMAScript counts as white space or line terminators.
 */
module JsString {

  /** ECMAScript WhiteSpace (tab, vertical tab, form feed, space, no-break space, byte order mark, Unicode Zs) and LineTerminator. */
  predicate IsWhiteSpace(c: char) {
    || c == '\t' || c == '\U{000B}' || c == '\U{000C}' || c == ' ' || c == '\U{00A0}' || c == '\U{FEFF}'
    || c == '\U{1680}' || ('\U{2000}' <= c <= '\U{200A}') || c == '\U{202F}' || c == '\U{205F}' || c == '\U{3000}'
    || c == '\n' || c == '\r' || c == '\U{2028}' || c == '\U{2029}'
  }

  predicate AllWhiteSpace(s: string) {
    forall i :: 0 <= i < |s| ==> IsWhiteSpace(s[i])
  }

  /** Neither end of `s` is white space. */
  predicate IsTrimmed(s: string) {
    |s| == 0 || (!IsWhiteSpace(s[0]) && !IsWhiteSpace(s[|s| - 1]))
  }

  /** `s` with its leading white space removed. */
  function TrimStart(s: string): (r: string)
    ensures |r| <= |s| && r == s[|s| - |r|..]
    ensures AllWhiteSpace(s[..|s| - |r|])
    ensures |r| == 0 || !IsWhiteSpace(r[0])
    decreases |s|
  {
    if |s| > 0 && IsWhiteSpace(s[0]) then
      var r := TrimStart(s[1..]);
      assert s[..|s| - |r|] == [s[0]] + s[1..][..|s| - 1 - |r|];
      r
    else s
  }

  /** `s` with its trailing white space removed. */
  function TrimEnd(s: string): (r: string)
    ensures |r| <= |s| && r == s[..|r|]
    ensures AllWhiteSpace(s[|r|..])
    ensures |r| == 0 || !IsWhiteSpace(r[|r| - 1])
    decreases |s|
  {
    if |s| > 0 && IsWhiteSpace(s[|s| - 1]) then
      var r := TrimEnd(s[..|s| - 1]);
      assert s[|r|..] == s[..|s| - 1][|r|..] + [s[|s| - 1]];
      r
    else s
  }

  /** `r` is `s` with white-space runs cut off at both ends: s == lead + r + trail with lead and trail all white space. */
  ghost predicate TrimmedFrom(s: string, r: string) {
    exists lead: nat :: lead + |r| <= |s| && s[lead..lead + |r|] == r
      && AllWhiteSpace(s[..lead]) && AllWhiteSpace(s[lead + |r|..])
  }

  /** `String.prototype.trim`. */
  function Trim(s: string): (r: string)
    ensures IsTrimmed(r)
    ensures TrimmedFrom(s, r)
    ensures |r| == 0 <==> AllWhiteSpace(s)
  {
    TrimKeepsInfix(s);
    TrimLeavesNoEdgeSpace(s);
    TrimEmptyIffBlank(s);
    TrimEnd(TrimStart(s))
  }

  // The three facts behind `Trim`'s contract, each proved on its own to keep every obligation small.
  lemma TrimKeepsInfix(s: string)
    ensures TrimmedFrom(s, TrimEnd(TrimStart(s)))
  {
  }

  lemma TrimLeavesNoEdgeSpace(s: string)
    ensures IsTrimmed(TrimEnd(TrimStart(s)))
  {
  }

  lemma TrimEmptyIffBlank(s: string)
    ensures |TrimEnd(TrimStart(s))| == 0 <==> AllWhiteSpace(s)
  {
    var a := TrimStart(s);
    var r := TrimEnd(a);
    var lead := |s| - |a|;
    if |r| == 0 {
      assert s[..lead] == s;
    }
  }

  /** Trimming an already trimmed string leaves it as it is. */
  lemma TrimFixesTrimmed(s: string)
    requires IsTrimmed(s)
    ensures Trim(s) == s
  {
  }

  /** `trim` is idempotent. */
  lemma TrimIdempotent(s: string)
    ensures Trim(Trim(s)) == Trim(s)
  {
    TrimFixesTrimmed(Trim(s));
  }
}
