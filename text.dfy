/** `String.prototype.trim`: strips ECMAScript white space and line terminators from both ends. */
module Text {

  /** The code points `trim` removes: ECMAScript WhiteSpace (tab, vertical tab, form feed,
      no-break space, byte order mark and the space separators) and LineTerminator
      (line feed, carriage return, line and paragraph separators). */
  predicate IsTrimmable(c: char) {
    c == '\t' || c == '\n' || c == '\U{000B}' || c == '\U{000C}' || c == '\r' || c == ' '
    || c == '\U{00A0}' || c == '\U{1680}' || ('\U{2000}' <= c <= '\U{200A}')
    || c == '\U{2028}' || c == '\U{2029}' || c == '\U{202F}' || c == '\U{205F}'
    || c == '\U{3000}' || c == '\U{FEFF}'
  }

  predicate AllTrimmable(s: string) {
    forall i :: 0 <= i < |s| ==> IsTrimmable(s[i])
  }

  /** How many characters at the start of `s` are trimmable: the length of its longest
      trimmable prefix. */
  function LeadingCount(s: string): (k: nat)
    ensures k <= |s|
    ensures forall i :: 0 <= i < k ==> IsTrimmable(s[i])
    ensures k < |s| ==> !IsTrimmable(s[k])
  {
    if s != [] && IsTrimmable(s[0]) then 1 + LeadingCount(s[1..]) else 0
  }

  /** How many characters at the end of `s` are trimmable: the length of its longest
      trimmable suffix. */
  function TrailingCount(s: string): (k: nat)
    ensures k <= |s|
    ensures forall i :: |s| - k <= i < |s| ==> IsTrimmable(s[i])
    ensures k < |s| ==> !IsTrimmable(s[|s| - k - 1])
  {
    if s != [] && IsTrimmable(s[|s| - 1]) then 1 + TrailingCount(s[..|s| - 1]) else 0
  }

  /** `trim()`: the text between the trimmable prefix and the trimmable suffix. */
  function Trim(s: string): string {
    var lo := LeadingCount(s);
    s[lo..|s| - TrailingCount(s[lo..])]
  }

  /** What `trim` returns is a contiguous piece of `s`, starting after the trimmable
      prefix. */
  lemma TrimIsInfix(s: string)
    ensures var r, lo := Trim(s), LeadingCount(s);
      lo + |r| <= |s| && r == s[lo..lo + |r|]
  {
    var lo := LeadingCount(s);
    var t := s[lo..];
    assert |Trim(s)| == |t| - TrailingCount(t);
  }

  /** `trim` removes only white space: every character before and after the piece it
      returns is trimmable. */
  lemma TrimDropsOnlyWhiteSpace(s: string)
    ensures var r, lo := Trim(s), LeadingCount(s);
      && (forall i :: 0 <= i < lo ==> IsTrimmable(s[i]))
      && (forall i :: lo + |r| <= i < |s| ==> IsTrimmable(s[i]))
  {
    var lo := LeadingCount(s);
    var t := s[lo..];
    var r := Trim(s);
    assert |r| == |t| - TrailingCount(t);
    forall i | lo + |r| <= i < |s|
      ensures IsTrimmable(s[i])
    {
      assert s[i] == t[i - lo];
    }
  }

  /** `trim` removes all the white space at both ends: neither end of its result is
      trimmable. */
  lemma TrimEnds(s: string)
    ensures var r := Trim(s); r != [] ==> !IsTrimmable(r[0]) && !IsTrimmable(r[|r| - 1])
  {
    var lo := LeadingCount(s);
    var t := s[lo..];
    var m := TrailingCount(t);
    var r := Trim(s);
    if r != [] {
      assert r[0] == s[lo];
      assert r[|r| - 1] == t[|t| - m - 1];
    }
  }

  /** `trim()` yields the empty string, which JavaScript treats as false, exactly when
      every character of the input is white space. */
  lemma TrimEmptyIff(s: string)
    ensures Trim(s) == [] <==> AllTrimmable(s)
  {
    var lo := LeadingCount(s);
    var t := s[lo..];
    var m := TrailingCount(t);
    if AllTrimmable(s) {
      assert lo == |s|;
    }
  }

  /** Trimming twice is trimming once. */
  lemma TrimIdempotent(s: string)
    ensures Trim(Trim(s)) == Trim(s)
  {
    var r := Trim(s);
    TrimEnds(s);
    if r != [] {
      assert LeadingCount(r) == 0;
      assert TrailingCount(r) == 0;
    }
  }
}
