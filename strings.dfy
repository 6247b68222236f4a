/**
 * The few java.lang.String operations the JAR processors rely on, written out over
 * `seq<char>`: prefix and suffix tests, `trim`, `lines`, whitespace tokenization as
 * done by `java.util.Scanner`, ASCII case folding, and literal replacement.
 */
module JavaStrings {

  predicate StartsWith(s: string, prefix: string) {
    prefix <= s
  }

  predicate EndsWith(s: string, suffix: string) {
    |suffix| <= |s| && s[|s| - |suffix|..] == suffix
  }

  /** `String.trim` removes every leading and trailing character up to U+0020. */
  predicate IsTrimmed(c: char) {
    c <= ' '
  }

  /** The characters `Character.isWhitespace` accepts in the ASCII range (Scanner's default delimiter). */
  predicate IsWhitespace(c: char) {
    c == ' ' || c == '\t' || c == '\n' || c == '\U{000B}' || c == '\U{000C}' || c == '\r'
    || ('\U{001C}' <= c <= '\U{001F}')
  }

  predicate IsLineBreak(c: char) {
    c == '\n' || c == '\r'
  }

  predicate NoWhitespace(t: string) {
    forall k :: 0 <= k < |t| ==> !IsWhitespace(t[k])
  }

  predicate NoLineBreak(t: string) {
    forall k :: 0 <= k < |t| ==> !IsLineBreak(t[k])
  }

  // ---------------------------------------------------------------- trim

  function TrimLeading(s: string): (r: string)
    ensures |r| <= |s| && r == s[|s| - |r|..]
    ensures r == [] || !IsTrimmed(r[0])
    ensures forall k :: 0 <= k < |s| - |r| ==> IsTrimmed(s[k])
    decreases |s|
  {
    if s != [] && IsTrimmed(s[0]) then TrimLeading(s[1..]) else s
  }

  function TrimTrailing(s: string): (r: string)
    ensures |r| <= |s| && r == s[..|r|]
    ensures r == [] || !IsTrimmed(r[|r| - 1])
    ensures forall k :: |r| <= k < |s| ==> IsTrimmed(s[k])
    decreases |s|
  {
    if s != [] && IsTrimmed(s[|s| - 1]) then TrimTrailing(s[..|s| - 1]) else s
  }

  /** `String.trim`: the longest slice of `s` that neither starts nor ends with a character up to U+0020. */
  function Trim(s: string): (r: string)
    ensures |r| <= |s|
    ensures r == [] || (!IsTrimmed(r[0]) && !IsTrimmed(r[|r| - 1]))
    ensures |r| <= |TrimLeading(s)| && r == TrimLeading(s)[..|r|]
  {
    TrimTrailing(TrimLeading(s))
  }

  /**
   * `trim` removes exactly the characters up to U+0020 around the slice it keeps: the result
   * is `s[lo..hi]`, everything before `lo` and from `hi` on is trimmed away, and the slice
   * starts and ends with a character above U+0020.
   */
  lemma TrimExact(s: string)
    ensures var lo := |s| - |TrimLeading(s)|;
            var hi := lo + |Trim(s)|;
            && 0 <= lo <= hi <= |s|
            && Trim(s) == s[lo..hi]
            && (forall k :: 0 <= k < lo ==> IsTrimmed(s[k]))
            && (forall k :: hi <= k < |s| ==> IsTrimmed(s[k]))
  {
    var t := TrimLeading(s);
    var lo := |s| - |t|;
    var hi := lo + |Trim(s)|;
    assert t == s[lo..];
    forall k | hi <= k < |s|
      ensures IsTrimmed(s[k])
    {
      assert s[k] == t[k - lo];
    }
  }

  /** Trimming a string that already starts and ends with a visible character gives it back. */
  lemma {:induction false} TrimNoop(s: string)
    requires s == [] || (!IsTrimmed(s[0]) && !IsTrimmed(s[|s| - 1]))
    ensures Trim(s) == s
  {
    assert TrimLeading(s) == s;
    assert TrimTrailing(s) == s;
  }

  /** `trim` is idempotent. */
  lemma TrimIdempotent(s: string)
    ensures Trim(Trim(s)) == Trim(s)
  {
    TrimNoop(Trim(s));
  }

  // ---------------------------------------------------------------- tokens

  /** Length of the run of non-whitespace characters `s` starts with. */
  function WordLength(s: string): (n: nat)
    ensures n <= |s| && NoWhitespace(s[..n])
    ensures n == |s| || IsWhitespace(s[n])
    decreases |s|
  {
    if s == [] || IsWhitespace(s[0]) then 0 else 1 + WordLength(s[1..])
  }

  /** The tokens a `java.util.Scanner` with its default delimiter yields for `s`. */
  function Tokens(s: string): (ts: seq<string>)
    ensures forall i :: 0 <= i < |ts| ==> ts[i] != [] && NoWhitespace(ts[i])
    decreases |s|
  {
    if s == [] then []
    else if IsWhitespace(s[0]) then Tokens(s[1..])
    else
      var n := WordLength(s);
      [s[..n]] + Tokens(s[n..])
  }

  /** A single word is its own only token. */
  lemma {:induction false} TokensOfWord(w: string)
    requires w != [] && NoWhitespace(w)
    ensures Tokens(w) == [w]
  {
    WordLengthOfWord(w);
    assert w[..|w|] == w;
    assert w[|w|..] == [];
  }

  lemma {:induction false} WordLengthOfWord(w: string)
    requires NoWhitespace(w)
    ensures WordLength(w) == |w|
    decreases |w|
  {
    if w != [] {
      assert NoWhitespace(w[1..]) by {
        forall k | 0 <= k < |w[1..]| ensures !IsWhitespace(w[1..][k]) {
          assert w[1..][k] == w[k + 1];
        }
      }
      WordLengthOfWord(w[1..]);
    }
  }

  /** A whitespace character separates tokens: tokenizing `a + [c] + b` tokenizes `a` and `b` apart. */
  lemma {:induction false} TokensSplit(a: string, c: char, b: string)
    requires IsWhitespace(c)
    ensures Tokens(a + [c] + b) == Tokens(a) + Tokens(b)
    decreases |a|
  {
    var s := a + [c] + b;
    if a == [] {
      assert s[1..] == b;
    } else if IsWhitespace(a[0]) {
      assert s[1..] == a[1..] + [c] + b;
      TokensSplit(a[1..], c, b);
    } else {
      var n := WordLength(a);
      WordLengthPrefix(a, c, b);
      assert s[..n] == a[..n];
      assert s[n..] == a[n..] + [c] + b;
      TokensSplit(a[n..], c, b);
    }
  }

  lemma {:induction false} WordLengthPrefix(a: string, c: char, b: string)
    requires IsWhitespace(c)
    ensures WordLength(a + [c] + b) == WordLength(a)
    decreases |a|
  {
    var s := a + [c] + b;
    if a == [] {
    } else if IsWhitespace(a[0]) {
    } else {
      assert s[1..] == a[1..] + [c] + b;
      WordLengthPrefix(a[1..], c, b);
    }
  }

  // ---------------------------------------------------------------- lines

  /** Length of the first line of `s`, up to (not including) its terminator. */
  function LineLength(s: string): (n: nat)
    ensures n <= |s| && NoLineBreak(s[..n])
    ensures n == |s| || IsLineBreak(s[n])
    decreases |s|
  {
    if s == [] || IsLineBreak(s[0]) then 0 else 1 + LineLength(s[1..])
  }

  /**
   * `String.lines`: the terminators are "\n", "\r" and "\r\n"; a terminator ends a line,
   * and a final line without terminator counts only when it is not empty.
   */
  function Lines(s: string): (ls: seq<string>)
    ensures forall i :: 0 <= i < |ls| ==> NoLineBreak(ls[i])
    ensures |ls| <= |s|
    decreases |s|
  {
    if s == [] then []
    else
      var n := LineLength(s);
      if n == |s| then [s]
      else if s[n] == '\r' && n + 1 < |s| && s[n + 1] == '\n' then [s[..n]] + Lines(s[n + 2..])
      else [s[..n]] + Lines(s[n + 1..])
  }

  /** Text with each line followed by "\n", as a tool writes its output. */
  function JoinLines(ls: seq<string>): string {
    if ls == [] then [] else ls[0] + "\n" + JoinLines(ls[1..])
  }

  lemma {:induction false} LineLengthOfLine(l: string, rest: string)
    requires NoLineBreak(l)
    ensures LineLength(l + rest) == |l| + LineLength(rest)
    decreases |l|
  {
    if l != [] {
      assert (l + rest)[0] == l[0] && !IsLineBreak(l[0]);
      assert (l + rest)[1..] == l[1..] + rest;
      assert NoLineBreak(l[1..]) by {
        forall k | 0 <= k < |l[1..]| ensures !IsLineBreak(l[1..][k]) {
          assert l[1..][k] == l[k + 1];
        }
      }
      LineLengthOfLine(l[1..], rest);
    } else {
      assert l + rest == rest;
    }
  }

  /** Splitting "\n"-terminated lines gives the lines back. */
  lemma {:induction false} LinesRoundTrip(ls: seq<string>)
    requires forall i :: 0 <= i < |ls| ==> NoLineBreak(ls[i])
    ensures Lines(JoinLines(ls)) == ls
    decreases |ls|
  {
    if ls != [] {
      var l := ls[0];
      var rest := JoinLines(ls[1..]);
      var s := JoinLines(ls);
      assert s == l + ("\n" + rest);
      LineLengthOfLine(l, "\n" + rest);
      assert LineLength(s) == |l|;
      assert s[|l|] == '\n';
      assert s[..|l|] == l;
      assert s[|l| + 1..] == rest;
      LinesRoundTrip(ls[1..]);
      assert ls == [l] + ls[1..];
    }
  }

  // ---------------------------------------------------------------- case

  function LowerChar(c: char): char {
    if 'A' <= c <= 'Z' then (c as int + 32) as char else c
  }

  /** `String.toLowerCase`, restricted to ASCII letters. */
  function Lower(s: string): (r: string)
    ensures |r| == |s|
  {
    seq(|s|, i requires 0 <= i < |s| => LowerChar(s[i]))
  }

  /** `String.equalsIgnoreCase`, restricted to ASCII letters. */
  predicate EqualsIgnoreCase(a: string, b: string) {
    Lower(a) == Lower(b)
  }

  // ---------------------------------------------------------------- replace

  /** `s.replace(pat, "")`: every non-overlapping occurrence, scanning from the left, is removed. */
  function RemoveAll(s: string, pat: string): (r: string)
    requires pat != []
    ensures |r| <= |s|
    ensures !StartsWith(s, pat) && s != [] ==> r != [] && r[0] == s[0]
    decreases |s|
  {
    if |s| < |pat| then s
    else if StartsWith(s, pat) then RemoveAll(s[|pat|..], pat)
    else [s[0]] + RemoveAll(s[1..], pat)
  }

  /** A string with no occurrence of `pat` is left as it is. */
  lemma {:induction false} RemoveAllAbsent(s: string, pat: string)
    requires pat != []
    requires forall k :: 0 <= k <= |s| ==> !StartsWith(s[k..], pat)
    ensures RemoveAll(s, pat) == s
    decreases |s|
  {
    if |s| >= |pat| {
      assert s[0..] == s;
      forall k | 0 <= k <= |s[1..]| ensures !StartsWith(s[1..][k..], pat) {
        assert s[1..][k..] == s[k + 1..];
      }
      RemoveAllAbsent(s[1..], pat);
    }
  }

  /** A leading occurrence is removed before the rest is scanned. */
  lemma RemoveAllPrefix(pat: string, s: string)
    requires pat != []
    ensures RemoveAll(pat + s, pat) == RemoveAll(s, pat)
  {
    assert (pat + s)[|pat|..] == s;
  }

  /** `s.replaceFirst(pat, "")` for a pattern without regular-expression metacharacters. */
  function ReplaceFirst(s: string, pat: string): (r: string)
    requires pat != []
    ensures |r| == |s| || |r| == |s| - |pat|
    decreases |s|
  {
    if |s| < |pat| then s
    else if StartsWith(s, pat) then s[|pat|..]
    else [s[0]] + ReplaceFirst(s[1..], pat)
  }

  /** On a string that starts with the pattern, replaceFirst drops exactly that prefix. */
  lemma ReplaceFirstOfPrefix(s: string, pat: string)
    requires pat != [] && StartsWith(s, pat)
    ensures ReplaceFirst(s, pat) == s[|pat|..]
  {
  }

  /**
   * `s.replaceAll("\\.", "/")`: every '.' becomes '/'. No '.' is left, a string without '.'
   * is kept, and so replacing twice is replacing once.
   */
  function DotsToSlashes(s: string): (r: string)
    ensures |r| == |s|
    ensures forall i :: 0 <= i < |s| ==> r[i] == (if s[i] == '.' then '/' else s[i])
    ensures '.' !in r
    ensures '.' !in s ==> r == s
  {
    seq(|s|, i requires 0 <= i < |s| => if s[i] == '.' then '/' else s[i])
  }

  /** Two strings map to the same result exactly when they agree up to '.' versus '/'. */
  lemma {:induction false} DotsToSlashesSame(a: string, b: string)
    ensures DotsToSlashes(a) == DotsToSlashes(b) <==>
              |a| == |b| && forall i :: 0 <= i < |a| ==>
                (a[i] == b[i] || (a[i] in "./" && b[i] in "./"))
  {
    if DotsToSlashes(a) == DotsToSlashes(b) {
      forall i | 0 <= i < |a|
        ensures a[i] == b[i] || (a[i] in "./" && b[i] in "./")
      {
        assert DotsToSlashes(a)[i] == DotsToSlashes(b)[i];
      }
    }
    if |a| == |b| && forall i :: 0 <= i < |a| ==> (a[i] == b[i] || (a[i] in "./" && b[i] in "./")) {
      forall i | 0 <= i < |a|
        ensures DotsToSlashes(a)[i] == DotsToSlashes(b)[i]
      {
      }
    }
  }
}
