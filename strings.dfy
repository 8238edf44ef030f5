/**
 * Character classes and string helpers with the meaning JavaScript gives
 * them: the `\s` and `\w` regular-expression classes, `String.prototype.trim`,
 * ASCII case folding as the `i` flag applies it to ASCII patterns, and the
 * decimal rendering of an integer in a template literal.
 */
module Strings {

  /** JavaScript's `\s`: WhiteSpace (TAB, VT, FF, ZWNBSP, every Zs) and LineTerminator. */
  predicate IsJsSpace(c: char) {
    || c == '\t' || c == '\n' || c == '\U{0B}' || c == '\U{0C}' || c == '\r' || c == ' '
    || c == '\U{A0}' || c == '\U{1680}' || ('\U{2000}' <= c <= '\U{200A}')
    || c == '\U{2028}' || c == '\U{2029}' || c == '\U{202F}' || c == '\U{205F}'
    || c == '\U{3000}' || c == '\U{FEFF}'
  }

  /** JavaScript's `\w` without the `u` flag: `[A-Za-z0-9_]`. */
  predicate IsWordChar(c: char) {
    ('a' <= c <= 'z') || ('A' <= c <= 'Z') || ('0' <= c <= '9') || c == '_'
  }

  predicate IsAsciiLetter(c: char) {
    ('a' <= c <= 'z') || ('A' <= c <= 'Z')
  }

  predicate AllSpace(s: string) {
    forall i :: 0 <= i < |s| ==> IsJsSpace(s[i])
  }

  /** Upper-case ASCII letters to lower case; every other character is kept. */
  function LowerAscii(c: char): char {
    if 'A' <= c <= 'Z' then (c as int + 32) as char else c
  }

  /**
   * `t` begins with `pat` when compared as a case-insensitive regular
   * expression compares them; `pat` is written in lower case.  Without the
   * `u` flag only ASCII letters fold, so this is exact for ASCII patterns.
   */
  predicate StartsWithCi(t: string, pat: string) {
    |pat| <= |t| && forall i :: 0 <= i < |pat| ==> LowerAscii(t[i]) == pat[i]
  }

  /** The length of the longest run of `\s` characters starting at `from`. */
  function SpaceRun(t: string, from: nat): (n: nat)
    requires from <= |t|
    ensures from + n <= |t|
    decreases |t| - from
  {
    if from < |t| && IsJsSpace(t[from]) then 1 + SpaceRun(t, from + 1) else 0
  }

  /** The run `SpaceRun` measures is all whitespace and cannot be extended. */
  lemma {:induction false} SpaceRunMaximal(t: string, from: nat)
    requires from <= |t|
    ensures var n := SpaceRun(t, from);
      && (forall i :: from <= i < from + n ==> IsJsSpace(t[i]))
      && (from + n == |t| || !IsJsSpace(t[from + n]))
    decreases |t| - from
  {
    if from < |t| && IsJsSpace(t[from]) {
      SpaceRunMaximal(t, from + 1);
    }
  }

  /** The length of the longest run of `\s` characters ending just before `end`. */
  function SpaceRunBack(t: string, end: nat): (n: nat)
    requires end <= |t|
    ensures n <= end
  {
    if end > 0 && IsJsSpace(t[end - 1]) then 1 + SpaceRunBack(t, end - 1) else 0
  }

  /** The run `SpaceRunBack` measures is all whitespace and cannot be extended. */
  lemma {:induction false} SpaceRunBackMaximal(t: string, end: nat)
    requires end <= |t|
    ensures var n := SpaceRunBack(t, end);
      && (forall i :: end - n <= i < end ==> IsJsSpace(t[i]))
      && (n == end || !IsJsSpace(t[end - n - 1]))
  {
    if end > 0 && IsJsSpace(t[end - 1]) {
      SpaceRunBackMaximal(t, end - 1);
    }
  }

  /** Removes leading `\s` characters. */
  function TrimStart(s: string): string {
    s[SpaceRun(s, 0)..]
  }

  /** `TrimStart` cuts a maximal run of whitespace off the front. */
  lemma TrimStartShape(s: string)
    ensures var r := TrimStart(s);
      && |r| <= |s| && r == s[|s| - |r|..]
      && AllSpace(s[..|s| - |r|])
      && (r == [] || !IsJsSpace(r[0]))
  {
    var n := SpaceRun(s, 0);
    SpaceRunMaximal(s, 0);
    assert forall i :: 0 <= i < n ==> s[..n][i] == s[i];
  }

  /** Removes trailing `\s` characters. */
  function TrimEnd(s: string): string {
    s[..|s| - SpaceRunBack(s, |s|)]
  }

  /** `TrimEnd` cuts a maximal run of whitespace off the back. */
  lemma TrimEndShape(s: string)
    ensures var r := TrimEnd(s);
      && |r| <= |s| && r == s[..|r|]
      && AllSpace(s[|r|..])
      && (r == [] || !IsJsSpace(r[|r| - 1]))
  {
    var m := |s| - SpaceRunBack(s, |s|);
    SpaceRunBackMaximal(s, |s|);
    assert forall i :: 0 <= i < |s| - m ==> s[m..][i] == s[m + i];
  }

  /** The `trim()` sanitiser: `\s` removed from both ends, the left end first. */
  function Trim(s: string): string {
    TrimEnd(TrimStart(s))
  }

  /**
   * Trimming keeps one contiguous piece of the input, with only whitespace
   * cut off on either side, and the piece neither starts nor ends with
   * whitespace.
   */
  lemma TrimIsMaximalStrip(s: string)
    ensures var r := Trim(s);
      && |r| <= |s|
      && (exists i :: 0 <= i <= |s| - |r| && r == s[i..i + |r|] && AllSpace(s[..i]) && AllSpace(s[i + |r|..]))
      && (r == [] || (!IsJsSpace(r[0]) && !IsJsSpace(r[|r| - 1])))
  {
    var r := Trim(s);
    var i := |s| - |TrimStart(s)|;
    TrimStartShape(s);
    TrimEndShape(TrimStart(s));
    TrimKeepsPiece(s);
    TrimCutsSpaceRight(s);
    TrimEndsWithNonSpace(s);
    assert 0 <= i <= |s| - |r| && r == s[i..i + |r|] && AllSpace(s[..i]) && AllSpace(s[i + |r|..]);
  }

  lemma TrimKeepsPiece(s: string)
    ensures var i := |s| - |TrimStart(s)|;
      i + |Trim(s)| <= |s| && Trim(s) == s[i..i + |Trim(s)|]
  {
    var a := TrimStart(s);
    TrimStartShape(s);
    TrimEndShape(a);
    PrefixOfSuffix(s, a, TrimEnd(a), |s| - |a|);
  }

  lemma PrefixOfSuffix(s: string, a: string, r: string, i: nat)
    requires i <= |s| && a == s[i..] && |r| <= |a| && r == a[..|r|]
    ensures i + |r| <= |s| && r == s[i..i + |r|]
  {
  }

  lemma TrimCutsSpaceRight(s: string)
    ensures var i := |s| - |TrimStart(s)|;
      i + |Trim(s)| <= |s| && AllSpace(s[i + |Trim(s)|..])
  {
    var a := TrimStart(s);
    TrimStartShape(s);
    TrimEndShape(a);
    SpaceOfSuffix(s, a, |s| - |a|, |TrimEnd(a)|);
  }

  lemma SpaceOfSuffix(s: string, a: string, i: nat, m: nat)
    requires i <= |s| && a == s[i..] && m <= |a| && AllSpace(a[m..])
    ensures i + m <= |s| && AllSpace(s[i + m..])
  {
    assert s[i + m..] == a[m..];
  }

  lemma TrimEndsWithNonSpace(s: string)
    ensures var r := Trim(s); r == [] || (!IsJsSpace(r[0]) && !IsJsSpace(r[|r| - 1]))
  {
    var a := TrimStart(s);
    var r := TrimEnd(a);
    TrimStartShape(s);
    TrimEndShape(a);
    if r != [] {
      assert r[0] == a[0];
    }
  }

  /** Trimming twice is trimming once. */
  lemma TrimIdempotent(s: string)
    ensures Trim(Trim(s)) == Trim(s)
  {
    var r := Trim(s);
    TrimIsMaximalStrip(s);
  }

  /** Decimal rendering of a natural number, as `${n}` prints it. */
  function NatToDecimal(n: nat): (r: string)
    ensures |r| > 0 && forall i :: 0 <= i < |r| ==> '0' <= r[i] <= '9'
    ensures r[0] == '0' ==> n == 0
    decreases n
  {
    var d := ['0' + (n % 10) as char];
    if n < 10 then d else NatToDecimal(n / 10) + d
  }

  /** Decimal rendering of an integer, with a leading `-` when negative. */
  function IntToDecimal(n: int): (r: string)
    ensures |r| > 0
    ensures n >= 0 <==> r[0] != '-'
  {
    if n < 0 then "-" + NatToDecimal(-n) else NatToDecimal(n)
  }

  /** `t` occurs in `s` as a contiguous piece. */
  predicate IsInfix(t: string, s: string) {
    exists i :: 0 <= i <= |s| && t <= s[i..]
  }

  lemma InfixOfConcat(a: string, b: string, c: string)
    ensures IsInfix(b, a + b + c)
  {
    var s := a + b + c;
    assert b <= s[|a|..];
  }

  /** `a` is obtained from `b` by deleting characters (greedy embedding). */
  predicate IsSubsequence(a: string, b: string)
    decreases |b|
  {
    if a == [] then true
    else if b == [] then false
    else if a[0] == b[0] then IsSubsequence(a[1..], b[1..])
    else IsSubsequence(a, b[1..])
  }

  lemma {:induction false} SubsequenceRefl(s: string)
    ensures IsSubsequence(s, s)
    decreases |s|
  {
    if s != [] {
      SubsequenceRefl(s[1..]);
    }
  }

  lemma {:induction false} SubsequenceDropHead(a: string, c: string)
    requires a != [] && IsSubsequence(a, c)
    ensures IsSubsequence(a[1..], c)
    decreases |c|, 1
  {
    if a[0] == c[0] {
      SubsequenceExtend(a[1..], c);
    } else {
      SubsequenceDropHead(a, c[1..]);
      SubsequenceExtend(a[1..], c);
    }
  }

  /** One more character in front of the longer string keeps the embedding. */
  lemma {:induction false} SubsequenceExtend(x: string, c: string)
    requires c != [] && IsSubsequence(x, c[1..])
    ensures IsSubsequence(x, c)
    decreases |c|, 0
  {
    if x != [] && x[0] == c[0] {
      SubsequenceDropHead(x, c[1..]);
    }
  }

  lemma {:induction false} SubsequenceOfSuffix(x: string, c: string, k: nat)
    requires k <= |c| && IsSubsequence(x, c[k..])
    ensures IsSubsequence(x, c)
    decreases k
  {
    if k > 0 {
      assert c[k..] == c[1..][k - 1..];
      SubsequenceOfSuffix(x, c[1..], k - 1);
      SubsequenceExtend(x, c);
    }
  }

  lemma {:induction false} SubsequenceTransitive(a: string, b: string, c: string)
    requires IsSubsequence(a, b) && IsSubsequence(b, c)
    ensures IsSubsequence(a, c)
    decreases |c|
  {
    if a != [] {
      if b[0] == c[0] {
        if a[0] == b[0] {
          SubsequenceTransitive(a[1..], b[1..], c[1..]);
        } else {
          SubsequenceTransitive(a, b[1..], c[1..]);
        }
      } else {
        SubsequenceTransitive(a, b, c[1..]);
        SubsequenceExtend(a, c);
      }
    }
  }

  /** A subsequence is never longer. */
  lemma {:induction false} SubsequenceLength(a: string, b: string)
    requires IsSubsequence(a, b)
    ensures |a| <= |b|
    decreases |b|
  {
    if a != [] {
      if a[0] == b[0] {
        SubsequenceLength(a[1..], b[1..]);
      } else {
        SubsequenceLength(a, b[1..]);
      }
    }
  }
}
