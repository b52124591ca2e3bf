/** The Python string operations the pipeline relies on, with the facts the other modules use. */
module Text {

  /** Python's `str.isspace()`: the characters `\s`, `str.strip()` and `str.split()` treat as whitespace. */
  predicate IsSpace(c: char) {
    || ('\t' <= c <= '\r')
    || ('\U{1C}' <= c <= '\U{1F}')
    || c == ' ' || c == '\U{85}' || c == '\U{A0}' || c == '\U{1680}'
    || ('\U{2000}' <= c <= '\U{200A}')
    || c == '\U{2028}' || c == '\U{2029}' || c == '\U{202F}' || c == '\U{205F}' || c == '\U{3000}'
  }

  /** `s.startswith(p)` */
  predicate StartsWith(s: string, p: string) {
    |p| <= |s| && s[..|p|] == p
  }

  /** `w` occurs in `s` starting at index `i`. */
  predicate OccursAt(w: string, s: string, i: nat) {
    i + |w| <= |s| && s[i..i + |w|] == w
  }

  /** `w in s` for strings: `w` occurs as a contiguous piece of `s`. */
  ghost predicate IsInfix(w: string, s: string) {
    exists i: nat :: OccursAt(w, s, i)
  }

  /** `s.lstrip()` */
  function TrimStart(s: string): (r: string)
    ensures |r| <= |s| && r == s[|s| - |r|..]
    ensures r != [] ==> !IsSpace(r[0])
    ensures forall i :: 0 <= i < |s| - |r| ==> IsSpace(s[i])
  {
    if s != [] && IsSpace(s[0]) then TrimStart(s[1..]) else s
  }

  /** `s.rstrip()` */
  function TrimEnd(s: string): (r: string)
    ensures |r| <= |s| && r == s[..|r|]
    ensures r != [] ==> !IsSpace(r[|r| - 1])
    ensures forall i :: |r| <= i < |s| ==> IsSpace(s[i])
  {
    if s != [] && IsSpace(s[|s| - 1]) then TrimEnd(s[..|s| - 1]) else s
  }

  /** `s.strip()` */
  function Strip(s: string): string {
    TrimEnd(TrimStart(s))
  }

  /** `r` is the piece of `s` at `a` and everything of `s` around it is whitespace. */
  ghost predicate PaddedBy(s: string, r: string, a: nat) {
    && OccursAt(r, s, a)
    && (forall i :: 0 <= i < a ==> IsSpace(s[i]))
    && (forall i :: a + |r| <= i < |s| ==> IsSpace(s[i]))
  }

  /** The result of `s.strip()` begins and ends with a non-whitespace character. */
  lemma StripEnds(s: string)
    ensures Strip(s) != [] ==> !IsSpace(Strip(s)[0]) && !IsSpace(Strip(s)[|Strip(s)| - 1])
  {
    var t := TrimStart(s);
    var r := TrimEnd(t);
    if r != [] {
      assert r[0] == t[0];
    }
  }

  /** The result of `s.strip()` sits in `s` right after the whitespace `lstrip` removes. */
  lemma StripPadded(s: string)
    ensures PaddedBy(s, Strip(s), |s| - |TrimStart(s)|)
  {
    PaddedByTrims(s, TrimStart(s), TrimEnd(TrimStart(s)));
  }

  /** A right trim `r` of a left trim `t` of `s` is padded in `s` by the whitespace both removed. */
  lemma PaddedByTrims(s: string, t: string, r: string)
    requires |t| <= |s| && t == s[|s| - |t|..] && forall i :: 0 <= i < |s| - |t| ==> IsSpace(s[i])
    requires |r| <= |t| && r == t[..|r|] && forall i :: |r| <= i < |t| ==> IsSpace(t[i])
    ensures PaddedBy(s, r, |s| - |t|)
  {
    var a := |s| - |t|;
    assert s[a..a + |r|] == r by {
      assert s[a..a + |r|] == s[a..][..|r|];
    }
    forall i | a + |r| <= i < |s| ensures IsSpace(s[i]) {
      assert s[i] == t[i - a];
    }
  }

  /** `s.strip()` keeps one contiguous piece of `s` and removes exactly the whitespace around it. */
  lemma StripSpec(s: string)
    ensures exists a: nat :: PaddedBy(s, Strip(s), a)
    ensures Strip(s) != [] ==> !IsSpace(Strip(s)[0]) && !IsSpace(Strip(s)[|Strip(s)| - 1])
  {
    StripPadded(s);
    StripEnds(s);
  }

  /** `s.strip()` returns a string without leading or trailing whitespace that is a piece of `s`. */
  lemma StripIsPiece(s: string)
    ensures IsInfix(Strip(s), s)
    ensures Strip(s) != [] ==> !IsSpace(Strip(s)[0]) && !IsSpace(Strip(s)[|Strip(s)| - 1])
    ensures forall c :: c in Strip(s) ==> c in s
  {
    StripPadded(s);
    StripEnds(s);
    PieceOf(Strip(s), s, |s| - |TrimStart(s)|);
  }

  /** A string occurring in `s` is an infix of `s`, and each of its characters is in `s`. */
  lemma PieceOf(r: string, s: string, a: nat)
    requires OccursAt(r, s, a)
    ensures IsInfix(r, s)
    ensures forall c :: c in r ==> c in s
  {
    forall c | c in r ensures c in s {
      var k :| 0 <= k < |r| && r[k] == c;
      assert s[a..a + |r|][k] == c;
    }
  }

  /** Stripping a string that already has no whitespace at either end changes nothing. */
  lemma StripNoop(s: string)
    requires s != [] ==> !IsSpace(s[0]) && !IsSpace(s[|s| - 1])
    ensures Strip(s) == s
  {
  }

  /** `s[:n]` */
  function Take(s: string, n: nat): (r: string)
    ensures |r| <= n && |r| <= |s| && r == s[..|r|]
    ensures |s| <= n ==> r == s
    ensures n <= |s| ==> |r| == n
  {
    if |s| <= n then s else s[..n]
  }

  /** ASCII case folding, the part of `re.IGNORECASE` the model uses. */
  function LowerChar(c: char): char {
    if 'A' <= c <= 'Z' then (c as int + 32) as char else c
  }

  function Lower(s: string): (r: string)
    ensures |r| == |s| && forall i :: 0 <= i < |s| ==> r[i] == LowerChar(s[i])
  {
    seq(|s|, i requires 0 <= i < |s| => LowerChar(s[i]))
  }

  /** `w` (lower-case) occurs in `s` when case is ignored. */
  ghost predicate ContainsIgnoreCase(s: string, w: string) {
    IsInfix(w, Lower(s))
  }

  /** The piece of `s` at `i` spells the lower-case word `w` when case is ignored. */
  predicate WordAt(s: string, i: nat, w: string) {
    i + |w| <= |s| && forall k :: 0 <= k < |w| ==> LowerChar(s[i + k]) == w[k]
  }

  /** Index of the first non-whitespace character at or after `i`. */
  function SkipSpaces(s: string, i: nat): (j: nat)
    requires i <= |s|
    ensures i <= j <= |s|
    ensures forall k :: i <= k < j ==> IsSpace(s[k])
    ensures j < |s| ==> !IsSpace(s[j])
    decreases |s| - i
  {
    if i < |s| && IsSpace(s[i]) then SkipSpaces(s, i + 1) else i
  }

  /** The number of leading whitespace characters of `s`. */
  function SpaceRun(s: string): (n: nat)
    ensures n <= |s|
    ensures forall k :: 0 <= k < n ==> IsSpace(s[k])
    ensures n < |s| ==> !IsSpace(s[n])
  {
    SkipSpaces(s, 0)
  }

  /** `s.replace(pat, rep)`: every occurrence of `pat`, scanned left to right without overlaps, is replaced. */
  function ReplaceAll(s: string, pat: string, rep: string): (r: string)
    requires pat != []
    ensures rep == pat ==> r == s
    ensures pat[0] !in s ==> r == s
    decreases |s|
  {
    if |s| < |pat| then s
    else if s[..|pat|] == pat then
      assert s == s[..|pat|] + s[|pat|..];
      rep + ReplaceAll(s[|pat|..], pat, rep)
    else
      assert s == [s[0]] + s[1..];
      [s[0]] + ReplaceAll(s[1..], pat, rep)
  }

  /** `'{' + name + '}'`, the placeholder `str.format`-style templates use. */
  function Placeholder(name: string): string {
    "{" + name + "}"
  }

  /** A name that cannot contain the delimiters of a placeholder (every Python identifier is one). */
  predicate BraceFree(name: string) {
    '{' !in name && '}' !in name
  }

  /** A text with no opening brace is copied unchanged by a placeholder replacement. */
  lemma {:induction false} ReplaceAllNoBrace(s: string, name: string, rep: string)
    requires '{' !in s
    ensures ReplaceAll(s, Placeholder(name), rep) == s
    decreases |s|
  {
    var p := Placeholder(name);
    if |s| >= |p| {
      assert s[0] != p[0];
      assert s[..|p|] != p;
      ReplaceAllNoBrace(s[1..], name, rep);
      assert s == [s[0]] + s[1..];
    }
  }

  /** A prefix without an opening brace passes through a placeholder replacement untouched. */
  lemma {:induction false} ReplaceAllKeepsPrefix(s: string, w: string, name: string, rep: string)
    requires StartsWith(s, w) && '{' !in w
    ensures StartsWith(ReplaceAll(s, Placeholder(name), rep), w)
    decreases |w|
  {
    var p := Placeholder(name);
    if w != [] {
      assert s[0] == w[0];
      if |s| >= |p| {
        assert s[..|p|] != p by { assert s[0] != p[0]; }
      }
      ReplaceAllKeepsPrefix(s[1..], w[1..], name, rep);
    }
  }

  /** The pieces of a concatenation with no opening brace in the left part are replaced independently. */
  lemma {:induction false} ReplaceAllSkipsPlainPrefix(x: string, y: string, name: string, rep: string)
    requires '{' !in x
    ensures ReplaceAll(x + y, Placeholder(name), rep) == x + ReplaceAll(y, Placeholder(name), rep)
    decreases |x|
  {
    var p := Placeholder(name);
    if x != [] {
      var s := x + y;
      if |s| >= |p| {
        assert s[..|p|] != p by { assert s[0] == x[0] && x[0] != p[0]; }
      } else {
        ReplaceAllShortUnchanged(s, p, rep);
        ReplaceAllShortUnchanged(y, p, rep);
        return;
      }
      assert ReplaceAll(s, p, rep) == [s[0]] + ReplaceAll(s[1..], p, rep);
      assert s[1..] == x[1..] + y;
      ReplaceAllSkipsPlainPrefix(x[1..], y, name, rep);
      assert x == [x[0]] + x[1..];
    } else {
      assert x + y == y;
    }
  }

  lemma ReplaceAllShortUnchanged(s: string, pat: string, rep: string)
    requires pat != [] && |s| < |pat|
    ensures ReplaceAll(s, pat, rep) == s
  {
  }

  /** A text that starts with the placeholder has that placeholder replaced first. */
  lemma ReplaceAllLeadingPlaceholder(y: string, name: string, rep: string)
    ensures ReplaceAll(Placeholder(name) + y, Placeholder(name), rep) == rep + ReplaceAll(y, Placeholder(name), rep)
  {
    var p := Placeholder(name);
    var s := p + y;
    assert s[..|p|] == p;
    assert s[|p|..] == y;
  }

  /** Inside a placeholder, only the first character is an opening brace and only the last a closing one. */
  lemma PlaceholderShape(name: string)
    requires BraceFree(name)
    ensures var p := Placeholder(name);
      && p[0] == '{' && p[|p| - 1] == '}'
      && (forall k :: 0 < k < |p| ==> p[k] != '{')
      && (forall k :: 0 <= k < |p| - 1 ==> p[k] != '}')
  {
    var p := Placeholder(name);
    forall k | 0 < k < |p| - 1 ensures p[k] != '{' && p[k] != '}' {
      assert p[k] == name[k - 1];
    }
  }

  /** Two different brace-free placeholders cannot start at the same position. */
  lemma PlaceholdersDistinctAtStart(s: string, m: string, name: string)
    requires BraceFree(m) && BraceFree(name) && m != name
    requires StartsWith(s, Placeholder(m))
    ensures !StartsWith(s, Placeholder(name))
  {
    var q, p := Placeholder(m), Placeholder(name);
    PlaceholderShape(m);
    PlaceholderShape(name);
    if |p| < |q| {
      assert s[|p| - 1] == q[|p| - 1] != '}';
    } else if |q| < |p| {
      assert s[|q| - 1] == q[|q| - 1] == '}';
      assert |p| <= |s| ==> s[..|p|][|q| - 1] != p[|q| - 1];
    } else {
      assert p != q by { assert p[1..|p| - 1] == name && q[1..|q| - 1] == m; }
    }
  }

  /** An occurrence is kept, shifted, when text is put in front. */
  lemma OccursAfterPrefix(w: string, pre: string, t: string, k: nat)
    requires OccursAt(w, t, k)
    ensures OccursAt(w, pre + t, |pre| + k)
  {
    assert (pre + t)[|pre| + k..|pre| + k + |w|] == t[k..k + |w|];
  }

  /** An occurrence at or after `d` is an occurrence in `s[d..]`. */
  lemma OccursInSuffix(w: string, s: string, i: nat, d: nat)
    requires OccursAt(w, s, i) && d <= i
    ensures OccursAt(w, s[d..], i - d)
  {
    assert s[d..][i - d..i - d + |w|] == s[i..i + |w|];
  }

  /** An occurrence of `{m}` survives the replacement of another brace-free placeholder. */
  lemma {:induction false} PlaceholderSurvivesReplace(s: string, m: string, name: string, rep: string)
    requires BraceFree(m) && BraceFree(name) && m != name
    requires IsInfix(Placeholder(m), s)
    ensures IsInfix(Placeholder(m), ReplaceAll(s, Placeholder(name), rep))
    decreases |s|
  {
    var q, p := Placeholder(m), Placeholder(name);
    var i: nat :| OccursAt(q, s, i);
    PlaceholderShape(name);
    if i == 0 {
      PlaceholdersDistinctAtStart(s, m, name);
      PlaceholderShape(m);
      ReplaceAllKeepsPrefix(s[1..], q[1..], name, rep);
      var t := ReplaceAll(s[1..], p, rep);
      assert ReplaceAll(s, p, rep) == [s[0]] + t;
      assert t[..|q| - 1] == q[1..];
      assert OccursAt(q, [s[0]] + t, 0);
    } else if |s| >= |p| && s[..|p|] == p {
      assert s[i] == q[0] == '{';
      assert i >= |p|;
      OccursInSuffix(q, s, i, |p|);
      PlaceholderSurvivesReplace(s[|p|..], m, name, rep);
      var t := ReplaceAll(s[|p|..], p, rep);
      var k: nat :| OccursAt(q, t, k);
      OccursAfterPrefix(q, rep, t, k);
    } else {
      OccursInSuffix(q, s, i, 1);
      PlaceholderSurvivesReplace(s[1..], m, name, rep);
      var t := ReplaceAll(s[1..], p, rep);
      var k: nat :| OccursAt(q, t, k);
      OccursAfterPrefix(q, [s[0]], t, k);
    }
  }

  /** `str(n)` for a natural number. */
  function NatToString(n: nat): (r: string)
    ensures r != []
    decreases n
  {
    var d := ["0123456789"[n % 10]];
    if n < 10 then d else NatToString(n / 10) + d
  }

  /** `str(i)` for an integer. */
  function IntToString(i: int): string {
    if i < 0 then "-" + NatToString(-i) else NatToString(i)
  }

  /** `len(s.split())`: the number of maximal runs of non-whitespace characters. */
  function WordCount(s: string): (r: nat)
    ensures r <= |s|
    ensures r == 0 <==> forall i :: 0 <= i < |s| ==> IsSpace(s[i])
    decreases |s|
  {
    if s == [] then 0
    else if !IsSpace(s[0]) && (|s| == 1 || IsSpace(s[1])) then 1 + WordCount(s[1..])
    else WordCount(s[1..])
  }

  /** `s.split(c)[0]`: everything before the first `c`, or all of `s`. */
  function BeforeFirst(s: string, c: char): (r: string)
    ensures |r| <= |s| && r == s[..|r|]
    ensures c !in r
    ensures |r| < |s| ==> s[|r|] == c
  {
    if s == [] || s[0] == c then [] else [s[0]] + BeforeFirst(s[1..], c)
  }
}
