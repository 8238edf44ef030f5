/**
 * The string rewriting of the `sanitizeInput` middleware: three global,
 * case-insensitive deletions applied one after the other,
 *   1. a script block:        /<script\b[^<]*(?:(?!<\/script>)<[^<]*)*<\/script>/gi
 *   2. the scheme prefix:     /javascript:/gi
 *   3. an event-handler head: /on\w+\s*=/gi
 * Each deletion is one left-to-right pass of `String.prototype.replace`
 * with a global pattern: the leftmost match is removed, the scan goes on
 * after it, and what the removal brings together is not looked at again.
 */
module Sanitizer {
  import opened Wrappers
  import opened Strings

  /** The three patterns, in the order the sanitiser applies them. */
  datatype Pattern = ScriptBlock | JavascriptScheme | EventHandler

  const ScriptOpen: string := "<script"
  const ScriptClose: string := "</script>"
  const JavascriptPrefix: string := "javascript:"
  const HandlerPrefix: string := "on"

  /** The first position at or after `from` where `</script>` starts, in any letter case. */
  function FindScriptClose(t: string, from: nat): (r: Option<nat>)
    requires from <= |t|
    ensures r.Some? ==> from <= r.value < |t| && StartsWithCi(t[r.value..], ScriptClose)
    ensures forall q :: from <= q < (if r.Some? then r.value else |t|) ==> !StartsWithCi(t[q..], ScriptClose)
    decreases |t| - from
  {
    if from == |t| then None
    else if StartsWithCi(t[from..], ScriptClose) then Some(from)
    else FindScriptClose(t, from + 1)
  }

  /** The length of the longest run of `\w` characters starting at `from`. */
  function WordRun(t: string, from: nat): (n: nat)
    requires from <= |t|
    ensures from + n <= |t|
    ensures forall i :: from <= i < from + n ==> IsWordChar(t[i])
    ensures from + n == |t| || !IsWordChar(t[from + n])
    decreases |t| - from
  {
    if from < |t| && IsWordChar(t[from]) then 1 + WordRun(t, from + 1) else 0
  }

  /**
   * The length of the match of `p` that the regular-expression engine finds
   * at the start of `t`, or 0 when there is none.  None of the three
   * patterns looks behind its start or matches the empty string.
   */
  function MatchLength(p: Pattern, t: string): (n: nat)
    ensures n <= |t|
  {
    match p
    case ScriptBlock => ScriptBlockLength(t)
    case JavascriptScheme => JavascriptLength(t)
    case EventHandler => EventHandlerLength(t)
  }

  /** The script-block pattern: `<script`, a word boundary, then everything up to the first `</script>` inclusive. */
  function ScriptBlockLength(t: string): (n: nat)
    ensures n <= |t|
  {
    if StartsWithCi(t, ScriptOpen) && (|t| == 7 || !IsWordChar(t[7])) then
      match FindScriptClose(t, 7)
      case Some(q) => if q + 9 <= |t| then q + 9 else 0
      case None => 0
    else 0
  }

  /** The scheme pattern: `javascript:` in any case. */
  function JavascriptLength(t: string): (n: nat)
    ensures n <= |t|
  {
    if StartsWithCi(t, JavascriptPrefix) then 11 else 0
  }

  /** The event-handler pattern: `on`, one or more `\w`, any `\s`, then `=`. */
  function EventHandlerLength(t: string): (n: nat)
    ensures n <= |t|
  {
    if StartsWithCi(t, HandlerPrefix) then
      var w := WordRun(t, 2);
      var k := 2 + w + SpaceRun(t, 2 + w);
      if w > 0 && k < |t| && t[k] == '=' then k + 1 else 0
    else 0
  }

  /**
   * `t[..n]` is a whole match of the script-block pattern: `<script`, a word
   * boundary, a body in which no `</script>` starts, then `</script>`.
   */
  predicate IsScriptBlockMatch(t: string, n: nat) {
    && 16 <= n <= |t|
    && StartsWithCi(t, ScriptOpen)
    && !IsWordChar(t[7])
    && StartsWithCi(t[n - 9..], ScriptClose)
    && forall q :: 7 <= q < n - 9 ==> !StartsWithCi(t[q..], ScriptClose)
  }

  /** `t[..n]` is a whole match of `javascript:`. */
  predicate IsJavascriptMatch(t: string, n: nat) {
    n == 11 && StartsWithCi(t, JavascriptPrefix)
  }

  /**
   * `t[..n]` is a whole match of `on\w+\s*=`: `on`, at least one word
   * character, then whitespace only, then `=`.
   */
  predicate IsEventHandlerMatch(t: string, n: nat) {
    && 4 <= n <= |t|
    && StartsWithCi(t, HandlerPrefix)
    && t[n - 1] == '='
    && IsWordChar(t[2])
    && (forall i :: 2 <= i < n - 1 ==> IsWordChar(t[i]) || IsJsSpace(t[i]))
    && (forall i, j :: 2 <= i < j < n - 1 && IsJsSpace(t[i]) ==> IsJsSpace(t[j]))
  }

  /** The language of each pattern, read off the regular expression. */
  predicate Matches(p: Pattern, t: string, n: nat) {
    match p
    case ScriptBlock => IsScriptBlockMatch(t, n)
    case JavascriptScheme => IsJavascriptMatch(t, n)
    case EventHandler => IsEventHandlerMatch(t, n)
  }

  lemma ScriptBlockMatchExact(t: string, n: nat)
    ensures IsScriptBlockMatch(t, n) <==> (n > 0 && MatchLength(ScriptBlock, t) == n)
  {
    if n > 0 && MatchLength(ScriptBlock, t) == n {
      var q := FindScriptClose(t, 7).value;
      assert t[n - 9..] == t[q..];
    }
  }

  lemma EventHandlerMatchExact(t: string, n: nat)
    ensures IsEventHandlerMatch(t, n) <==> (n > 0 && MatchLength(EventHandler, t) == n)
  {
    if StartsWithCi(t, HandlerPrefix) {
      SpaceRunMaximal(t, 2 + WordRun(t, 2));
    }
    if IsEventHandlerMatch(t, n) {
      var w := WordRun(t, 2);
      assert w > 0;
      assert !IsWordChar(t[n - 1]);
      assert 2 + w <= n - 1;
      forall i | 2 + w <= i < n - 1
        ensures IsJsSpace(t[i])
      {
        assert !IsWordChar(t[2 + w]);
        assert IsJsSpace(t[2 + w]);
      }
      var sp := SpaceRun(t, 2 + w);
      assert !IsJsSpace(t[n - 1]);
      assert 2 + w + sp == n - 1;
    }
  }

  /** `MatchLength` finds exactly the regular expression's match, when there is one. */
  lemma MatchLengthIsRegexMatch(p: Pattern, t: string, n: nat)
    ensures Matches(p, t, n) <==> (n > 0 && MatchLength(p, t) == n)
  {
    match p
    case ScriptBlock => ScriptBlockMatchExact(t, n);
    case JavascriptScheme =>
    case EventHandler => EventHandlerMatchExact(t, n);
  }

  /** `t.replace(/p/gi, '')`: one left-to-right pass deleting every match of `p`. */
  function DeleteAll(p: Pattern, t: string): (r: string)
    ensures |r| <= |t|
    decreases |t|
  {
    if t == [] then []
    else
      var n := MatchLength(p, t);
      if n > 0 then DeleteAll(p, t[n..]) else [t[0]] + DeleteAll(p, t[1..])
  }

  /** The rewriting `sanitizeInput` applies to one string field. */
  function Sanitize(s: string): string {
    DeleteAll(EventHandler, DeleteAll(JavascriptScheme, DeleteAll(ScriptBlock, s)))
  }

  /** A match of `p` starts somewhere in `s`. */
  predicate Occurs(p: Pattern, s: string) {
    exists i :: 0 <= i < |s| && MatchLength(p, s[i..]) > 0
  }

  /** None of the three patterns matches anywhere in `s`. */
  predicate Clean(s: string) {
    !Occurs(ScriptBlock, s) && !Occurs(JavascriptScheme, s) && !Occurs(EventHandler, s)
  }

  /** A deletion pass only deletes: its output embeds in its input. */
  lemma {:induction false} DeleteAllIsSubsequence(p: Pattern, t: string)
    ensures IsSubsequence(DeleteAll(p, t), t)
    decreases |t|
  {
    if t != [] {
      var n := MatchLength(p, t);
      if n > 0 {
        DeleteAllIsSubsequence(p, t[n..]);
        SubsequenceOfSuffix(DeleteAll(p, t[n..]), t, n);
      } else {
        DeleteAllIsSubsequence(p, t[1..]);
      }
    }
  }

  /** A pass over a string in which a match starts makes the string strictly shorter. */
  lemma {:induction false} DeleteAllShrinks(p: Pattern, t: string, i: nat)
    requires i < |t| && MatchLength(p, t[i..]) > 0
    ensures |DeleteAll(p, t)| < |t|
    decreases |t|
  {
    if MatchLength(p, t) == 0 {
      assert i > 0;
      assert t[1..][i - 1..] == t[i..];
      DeleteAllShrinks(p, t[1..], i - 1);
    }
  }

  /** A pass over a string in which no match starts returns it unchanged. */
  lemma {:induction false} DeleteAllKeepsClean(p: Pattern, t: string)
    requires !Occurs(p, t)
    ensures DeleteAll(p, t) == t
    decreases |t|
  {
    if t != [] {
      assert t[0..] == t;
      assert MatchLength(p, t) == 0;
      forall i | 0 <= i < |t[1..]|
        ensures MatchLength(p, t[1..][i..]) == 0
      {
        assert t[1..][i..] == t[i + 1..];
      }
      DeleteAllKeepsClean(p, t[1..]);
    }
  }

  /** A pass leaves its input unchanged exactly when no match of its pattern starts in it. */
  lemma DeleteAllUnchangedIff(p: Pattern, t: string)
    ensures DeleteAll(p, t) == t <==> !Occurs(p, t)
  {
    if Occurs(p, t) {
      var i :| 0 <= i < |t| && MatchLength(p, t[i..]) > 0;
      DeleteAllShrinks(p, t, i);
    } else {
      DeleteAllKeepsClean(p, t);
    }
  }

  /** Sanitising only deletes characters; the output is never longer. */
  lemma SanitizeOnlyDeletes(s: string)
    ensures IsSubsequence(Sanitize(s), s)
    ensures |Sanitize(s)| <= |s|
  {
    var a := DeleteAll(ScriptBlock, s);
    var b := DeleteAll(JavascriptScheme, a);
    DeleteAllIsSubsequence(ScriptBlock, s);
    DeleteAllIsSubsequence(JavascriptScheme, a);
    DeleteAllIsSubsequence(EventHandler, b);
    SubsequenceTransitive(b, a, s);
    SubsequenceTransitive(Sanitize(s), b, s);
    SubsequenceLength(Sanitize(s), s);
  }

  /** Sanitising returns a string unchanged exactly when none of the patterns occurs in it. */
  lemma SanitizeUnchangedIff(s: string)
    ensures Sanitize(s) == s <==> Clean(s)
  {
    var a := DeleteAll(ScriptBlock, s);
    var b := DeleteAll(JavascriptScheme, a);
    var c := DeleteAll(EventHandler, b);
    DeleteAllUnchangedIff(ScriptBlock, s);
    DeleteAllUnchangedIff(JavascriptScheme, a);
    DeleteAllUnchangedIff(EventHandler, b);
    if c == s {
      assert |a| == |s|;
      if Occurs(ScriptBlock, s) {
        var i :| 0 <= i < |s| && MatchLength(ScriptBlock, s[i..]) > 0;
        DeleteAllShrinks(ScriptBlock, s, i);
      }
      assert a == s;
      if Occurs(JavascriptScheme, a) {
        var i :| 0 <= i < |a| && MatchLength(JavascriptScheme, a[i..]) > 0;
        DeleteAllShrinks(JavascriptScheme, a, i);
      }
      assert b == s;
    }
  }

  lemma ScriptBlockNeedsClose(u: string)
    requires forall q :: 0 <= q < |u| ==> !StartsWithCi(u[q..], ScriptClose)
    ensures MatchLength(ScriptBlock, u) == 0
  {
    if StartsWithCi(u, ScriptOpen) && (|u| == 7 || !IsWordChar(u[7])) {
      var r := FindScriptClose(u, 7);
      assert r.None?;
    }
  }

  /** A `<script` that is never closed is kept: no `</script>` in `t` means no script block. */
  lemma UnclosedScriptKept(t: string)
    requires forall q :: 0 <= q < |t| ==> !StartsWithCi(t[q..], ScriptClose)
    ensures DeleteAll(ScriptBlock, t) == t
  {
    forall i | 0 <= i < |t|
      ensures MatchLength(ScriptBlock, t[i..]) == 0
    {
      UnclosedSuffix(t, i);
    }
    DeleteAllKeepsClean(ScriptBlock, t);
  }

  lemma UnclosedSuffix(t: string, i: nat)
    requires forall q :: 0 <= q < |t| ==> !StartsWithCi(t[q..], ScriptClose)
    requires i < |t|
    ensures MatchLength(ScriptBlock, t[i..]) == 0
  {
    var u := t[i..];
    forall q | 0 <= q < |u|
      ensures !StartsWithCi(u[q..], ScriptClose)
    {
      assert u[q..] == t[i + q..];
    }
    ScriptBlockNeedsClose(u);
  }

  /** No script block starts at a character other than `<`. */
  lemma NoScriptWithoutAngle(t: string)
    requires t != [] && t[0] != '<'
    ensures MatchLength(ScriptBlock, t) == 0
  {
    assert LowerAscii(t[0]) != ScriptOpen[0];
  }

  /** No event-handler head starts at a character other than `o` or `O`. */
  lemma NoHandlerWithoutO(t: string)
    requires t != [] && t[0] != 'o' && t[0] != 'O'
    ensures MatchLength(EventHandler, t) == 0
  {
    assert LowerAscii(t[0]) != HandlerPrefix[0];
  }

  /** Fewer than eleven characters cannot hold `javascript:`. */
  lemma NoJavascriptInShort(t: string)
    requires |t| < 11
    ensures MatchLength(JavascriptScheme, t) == 0
  {
  }

  /** Without a `<` there is no script block to delete. */
  lemma NoAngleBracketNoScript(s: string)
    requires '<' !in s
    ensures DeleteAll(ScriptBlock, s) == s
  {
    forall i | 0 <= i < |s|
      ensures MatchLength(ScriptBlock, s[i..]) == 0
    {
      assert s[i..][0] == s[i];
      NoScriptWithoutAngle(s[i..]);
    }
    DeleteAllKeepsClean(ScriptBlock, s);
  }

  /** Without an `o` or `O` there is no event-handler head to delete. */
  lemma NoLetterONoHandler(s: string)
    requires 'o' !in s && 'O' !in s
    ensures DeleteAll(EventHandler, s) == s
  {
    forall i | 0 <= i < |s|
      ensures MatchLength(EventHandler, s[i..]) == 0
    {
      assert s[i..][0] == s[i];
      NoHandlerWithoutO(s[i..]);
    }
    DeleteAllKeepsClean(EventHandler, s);
  }

  /** An exact copy of a pattern written without upper-case letters matches it in any case. */
  lemma StartsWithLiteral(t: string, pat: string)
    requires pat <= t
    requires forall c :: c in pat ==> LowerAscii(c) == c
    ensures StartsWithCi(t, pat)
  {
    forall i | 0 <= i < |pat|
      ensures LowerAscii(t[i]) == pat[i]
    {
      assert pat[i] in pat;
    }
  }

  /** A character at which no match starts is kept, and the pass goes on after it. */
  lemma DeleteAllKeepsHead(p: Pattern, c: char, t: string)
    requires MatchLength(p, [c] + t) == 0
    ensures DeleteAll(p, [c] + t) == [c] + DeleteAll(p, t)
  {
    assert ([c] + t)[1..] == t;
  }

  /** A match at the front is deleted, and the pass goes on after it. */
  lemma DeleteAllSkipsMatch(p: Pattern, m: string, t: string)
    requires m != [] && MatchLength(p, m + t) == |m|
    ensures DeleteAll(p, m + t) == DeleteAll(p, t)
  {
    assert (m + t)[|m|..] == t;
  }

  /** An input whose `javascript:` pass leaves a fresh `javascript:` behind. */
  const NestedScheme: string := "java" + JavascriptPrefix + "script:"

  /** A string that begins with an exact `javascript:` starts a match of the second pattern. */
  lemma SchemeMatchesAtFront(s: string, tail: string)
    requires s == JavascriptPrefix + tail
    ensures MatchLength(JavascriptScheme, s) == |JavascriptPrefix|
  {
    StartsWithLiteral(s, JavascriptPrefix);
  }

  /** The `javascript:` pass deletes a leading exact prefix. */
  lemma JavascriptPassSkipsScheme(s: string, tail: string)
    requires s == JavascriptPrefix + tail
    ensures DeleteAll(JavascriptScheme, s) == DeleteAll(JavascriptScheme, tail)
  {
    SchemeMatchesAtFront(s, tail);
    DeleteAllSkipsMatch(JavascriptScheme, JavascriptPrefix, tail);
  }

  lemma JavascriptPassInner(s: string)
    requires s == JavascriptPrefix + "script:"
    ensures DeleteAll(JavascriptScheme, s) == "script:"
  {
    JavascriptPassSkipsScheme(s, "script:");
    NoShortJavascript("script:");
  }

  /** In the nested input no `javascript:` starts before position 4. */
  lemma NestedNoMatchBefore(s: string, i: nat)
    requires s == NestedScheme && i < 4
    ensures MatchLength(JavascriptScheme, s[i..]) == 0
  {
    if i == 0 {
      assert LowerAscii(s[0..][4]) != JavascriptPrefix[4];
    } else {
      assert LowerAscii(s[i..][0]) != JavascriptPrefix[0];
    }
  }

  /** The pass keeps a character at which no match starts, and goes on after it. */
  lemma DeleteAllKeepsAt(p: Pattern, s: string, i: nat)
    requires i < |s| && MatchLength(p, s[i..]) == 0
    ensures DeleteAll(p, s[i..]) == [s[i]] + DeleteAll(p, s[i + 1..])
  {
    assert s[i..][1..] == s[i + 1..];
  }

  lemma ConsConcat(c: char, a: string, b: string, t: string)
    requires a == [c] + b
    ensures [c] + (b + t) == a + t
  {
  }

  lemma ConsRun(s: string, i: nat, k: nat, tail: string, x: string)
    requires i < k <= |s| && x == s[i + 1..k] + tail
    ensures [s[i]] + x == s[i..k] + tail
  {
    assert s[i..k] == [s[i]] + s[i + 1..k];
    ConsConcat(s[i], s[i..k], s[i + 1..k], tail);
  }

  /** No match of `p` starts at position `j` of `s`. */
  predicate NoMatchAt(p: Pattern, s: string, j: nat) {
    j < |s| && MatchLength(p, s[j..]) == 0
  }

  /** A kept run from `i + 1` to `k` grows by one when no match starts at `i`. */
  lemma DeleteAllKeepsRunFrom(p: Pattern, s: string, i: nat, k: nat, tail: string)
    requires i < k <= |s| && NoMatchAt(p, s, i)
    requires DeleteAll(p, s[i + 1..]) == s[i + 1..k] + tail
    ensures DeleteAll(p, s[i..]) == s[i..k] + tail
  {
    DeleteAllKeepsAt(p, s, i);
    ConsRun(s, i, k, tail, DeleteAll(p, s[i + 1..]));
  }

  /** A run of positions at which no match starts is copied to the output unchanged. */
  lemma {:induction false} DeleteAllKeepsRun(p: Pattern, s: string, i: nat, k: nat, tail: string)
    requires i <= k <= |s|
    requires forall j :: i <= j < k ==> NoMatchAt(p, s, j)
    requires DeleteAll(p, s[k..]) == tail
    ensures DeleteAll(p, s[i..]) == s[i..k] + tail
    decreases k - i
  {
    if i < k {
      DeleteAllKeepsRun(p, s, i + 1, k, tail);
      DeleteAllKeepsRunFrom(p, s, i, k, tail);
    } else {
      assert s[i..k] + tail == tail;
    }
  }

  lemma NestedPieces(s: string)
    requires s == NestedScheme
    ensures s[4..] == JavascriptPrefix + "script:"
    ensures s[0..] == s
    ensures s[0..4] + "script:" == JavascriptPrefix
  {
  }

  lemma JavascriptPassNested(s: string)
    requires s == NestedScheme
    ensures DeleteAll(JavascriptScheme, s) == JavascriptPrefix
  {
    NestedPieces(s);
    JavascriptPassInner(s[4..]);
    forall j | 0 <= j < 4
      ensures NoMatchAt(JavascriptScheme, s, j)
    {
      NestedNoMatchBefore(s, j);
    }
    DeleteAllKeepsRun(JavascriptScheme, s, 0, 4, "script:");
  }

  /** The `javascript:` pass removes a bare scheme prefix entirely. */
  lemma JavascriptPassScheme(s: string)
    requires s == JavascriptPrefix
    ensures DeleteAll(JavascriptScheme, s) == ""
  {
    JavascriptPassSkipsScheme(s, "");
  }

  lemma NestedHasNoScript(s: string)
    requires s == NestedScheme
    ensures DeleteAll(ScriptBlock, s) == s
  {
    NoAngleBracketNoScript(s);
  }

  lemma SchemeHasNoScript(s: string)
    requires s == JavascriptPrefix
    ensures DeleteAll(ScriptBlock, s) == s
  {
    NoAngleBracketNoScript(s);
  }

  lemma SchemeHasNoHandler(s: string)
    requires s == JavascriptPrefix
    ensures DeleteAll(EventHandler, s) == s
  {
    NoLetterONoHandler(s);
  }

  lemma SanitizeNested(s: string)
    requires s == NestedScheme
    ensures Sanitize(s) == JavascriptPrefix
  {
    NestedHasNoScript(s);
    JavascriptPassNested(s);
    SchemeHasNoHandler(JavascriptPrefix);
  }

  lemma SanitizeScheme(s: string)
    requires s == JavascriptPrefix
    ensures Sanitize(s) == ""
  {
    SchemeHasNoScript(s);
    JavascriptPassScheme(s);
  }

  /**
   * Sanitising is not idempotent, and its output can still hold
   * `javascript:`: the pass removes the inner occurrence and does not rescan
   * what the removal joins together.
   */
  lemma SanitizeNotIdempotent()
    ensures Sanitize(NestedScheme) == JavascriptPrefix
    ensures Sanitize(Sanitize(NestedScheme)) == ""
    ensures StartsWithCi(Sanitize(NestedScheme), JavascriptPrefix)
  {
    SanitizeNested(NestedScheme);
    SanitizeScheme(JavascriptPrefix);
    StartsWithLiteral(JavascriptPrefix, JavascriptPrefix);
  }

  /** Fewer than eleven characters hold no `javascript:`. */
  lemma ShortHasNoJavascript(s: string)
    requires |s| < 11
    ensures !Occurs(JavascriptScheme, s)
  {
    forall i | 0 <= i < |s|
      ensures MatchLength(JavascriptScheme, s[i..]) == 0
    {
      NoJavascriptInShort(s[i..]);
    }
  }

  /** The `javascript:` pass leaves fewer than eleven characters alone. */
  lemma NoShortJavascript(s: string)
    requires |s| < 11
    ensures DeleteAll(JavascriptScheme, s) == s
  {
    ShortHasNoJavascript(s);
    DeleteAllKeepsClean(JavascriptScheme, s);
  }
}
