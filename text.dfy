/**
 * The handful of Python `str` operations the code relies on: `lower()`,
 * `in` (substring test), `startswith`, `strip()`, `rstrip(c)`, `split(sep)`
 * and `sep.join(parts)`.  Characters are Dafny `char`s; `lower()` and the
 * whitespace set of `strip()` are restricted to the ASCII/Latin-1 cases
 * listed below.
 */
module Text {
  import opened Wrappers

  // ---------------------------------------------------------------------
  // lower()

  function LowerChar(c: char): char {
    if 'A' <= c <= 'Z' then (c as int + 32) as char else c
  }

  /** `s.lower()`: every character mapped through LowerChar, length kept. */
  function Lower(s: string): (r: string)
    ensures |r| == |s|
    ensures forall i :: 0 <= i < |s| ==> r[i] == LowerChar(s[i])
  {
    seq(|s|, i requires 0 <= i < |s| => LowerChar(s[i]))
  }

  lemma LowerIdempotent(s: string)
    ensures Lower(Lower(s)) == Lower(s)
  {
  }

  /** Lower-casing commutes with taking a slice. */
  lemma LowerSlice(s: string, i: nat, j: nat)
    requires i <= j <= |s|
    ensures Lower(s)[i..j] == Lower(s[i..j])
  {
  }

  // ---------------------------------------------------------------------
  // substring test `sub in s`

  /** `sub` occurs in `s` starting at index `i`. */
  predicate MatchAt(s: string, sub: string, i: int) {
    0 <= i && i + |sub| <= |s| && s[i..i + |sub|] == sub
  }

  /** Python's `sub in s`. */
  predicate Contains(s: string, sub: string) {
    exists i | 0 <= i <= |s| :: MatchAt(s, sub, i)
  }

  /** Python's `any(k in s for k in keywords)`. */
  predicate ContainsAny(s: string, keywords: seq<string>) {
    exists j | 0 <= j < |keywords| :: Contains(s, keywords[j])
  }

  /** A witness index proves an occurrence. */
  lemma ContainsAt(s: string, sub: string, i: int)
    requires MatchAt(s, sub, i)
    ensures Contains(s, sub)
  {
  }
  lemma AppendRegroup(a: string, b: string, c: string, d: string, e: string)
    ensures a + b + (c + d + e) == (a + b + c) + d + e
  {
  }

  /** A lower-case word that starts a text occurs at the start of the lower-cased text. */
  lemma LowerMatchAtStart(w: string, b: string)
    requires Lower(w) == w
    ensures MatchAt(Lower(w + b), w, 0)
  {
    LowerSlice(w + b, 0, |w|);
    assert (w + b)[..|w|] == w;
  }

  /** A lower-case word placed between two texts occurs in the lower-cased whole right after the first. */
  lemma LowerMatchBetween(a: string, w: string, b: string)
    requires Lower(w) == w
    ensures MatchAt(Lower(a + w + b), w, |a|)
  {
    var s := a + w + b;
    assert s[|a|..|a| + |w|] == w;
    LowerSlice(s, |a|, |a| + |w|);
  }


  /** A character of `sub` that never occurs in `s` rules out an occurrence. */
  lemma AbsentChar(s: string, sub: string, k: nat)
    requires k < |sub| && sub[k] !in s
    ensures !Contains(s, sub)
  {
  }

  /** Lower-casing a concatenation lower-cases each part. */
  lemma LowerAppend(a: string, b: string)
    ensures Lower(a + b) == Lower(a) + Lower(b)
  {
    assert forall i :: 0 <= i < |a| ==> (a + b)[i] == a[i];
    assert forall i :: |a| <= i < |a| + |b| ==> (a + b)[i] == b[i - |a|];
  }

  /** A character absent from `s` in both cases is absent from `s.lower()`. */
  lemma LowerLacks(s: string, c: char)
    requires c !in s
    requires 'a' <= c <= 'z' ==> (c as int - 32) as char !in s
    ensures c !in Lower(s)
  {
    forall i | 0 <= i < |s| ensures Lower(s)[i] != c {
      assert s[i] in s;
    }
  }

  /**
   * When the first part ends in a character `sub` does not have, an
   * occurrence in the concatenation lies wholly within one of the parts.
   */
  lemma ContainsAcross(x: string, y: string, sub: string)
    requires x != [] && x[|x| - 1] !in sub
    ensures Contains(x + y, sub) <==> Contains(x, sub) || Contains(y, sub)
  {
    ContainsAppend(x, y, sub);
    var s := x + y;
    forall i | 0 <= i < |x| < i + |sub| ensures !MatchAt(s, sub, i) {
      if i + |sub| <= |s| {
        var k := |x| - 1 - i;
        assert s[i..i + |sub|][k] == x[|x| - 1];
      }
    }
    forall i | 0 <= i <= |s| && MatchAt(s, sub, i) ensures Contains(x, sub) || Contains(y, sub) {
      if i + |sub| <= |x| {
        assert x[i..i + |sub|] == s[i..i + |sub|];
        assert MatchAt(x, sub, i);
      } else {
        assert y[i - |x|..i - |x| + |sub|] == s[i..i + |sub|];
        assert MatchAt(y, sub, i - |x|);
      }
    }
  }

  /**
   * When the first character of `sub` occurs in `x + [m, n] + y` only as
   * the `m` and is followed there by a character other than the second of
   * `sub`, the text does not contain `sub`.
   */
  lemma SingleStartNoMatch(x: string, m: char, n: char, y: string, sub: string)
    requires |sub| >= 2 && sub[0] == m && sub[1] != n && m != n && m !in x && m !in y
    ensures !Contains(x + [m, n] + y, sub)
  {
    var s := x + [m, n] + y;
    forall i | 0 <= i <= |s| && i + |sub| <= |s| ensures !MatchAt(s, sub, i) {
      if i < |x| {
        assert s[i] == x[i] && x[i] in x;
        assert s[i..i + |sub|][0] != sub[0];
      } else if i == |x| {
        assert s[i..i + |sub|][1] != sub[1];
      } else if i == |x| + 1 {
        assert s[i..i + |sub|][0] != sub[0];
      } else {
        assert s[i] == y[i - |x| - 2] && y[i - |x| - 2] in y;
        assert s[i..i + |sub|][0] != sub[0];
      }
    }
  }

  /** No character of `s` is one of `cs`. */
  predicate Avoids(s: string, cs: string) {
    forall i | 0 <= i < |s| :: s[i] !in cs
  }

  /** A text that avoids some character of `sub` does not contain `sub`. */
  lemma AvoidsMisses(s: string, cs: string, sub: string, k: nat)
    requires Avoids(s, cs) && k < |sub| && sub[k] in cs
    ensures !Contains(s, sub)
  {
    forall i | 0 <= i <= |s| && i + |sub| <= |s| ensures !MatchAt(s, sub, i) {
      assert s[i..i + |sub|][k] == s[i + k];
    }
  }

  /** A text lacking, in either case, one character of `sub` does not contain `sub` once lower-cased. */
  lemma PieceLacks(p: string, sub: string, k: nat)
    requires k < |sub| && sub[k] !in p
    requires 'a' <= sub[k] <= 'z' ==> (sub[k] as int - 32) as char !in p
    ensures !Contains(Lower(p), sub)
  {
    LowerLacks(p, sub[k]);
    AbsentChar(Lower(p), sub, k);
  }

  /** A character in none of the parts is not in their concatenation. */
  lemma {:induction false} JoinLacks(parts: seq<string>, c: char)
    requires forall i :: 0 <= i < |parts| ==> c !in parts[i]
    ensures c !in Join(parts, "")
  {
    if |parts| >= 2 {
      JoinLacks(parts[1..], c);
      assert parts[0] + "" == parts[0];
    }
  }

  /**
   * When no part contains `sub` once lower-cased and every part but the
   * last is non-empty and ends in a character outside `sub`, neither does
   * their concatenation.
   */
  lemma {:induction false} JoinAvoids(parts: seq<string>, sub: string)
    requires sub != []
    requires forall i :: 0 <= i < |parts| ==> !Contains(Lower(parts[i]), sub)
    requires forall i :: 0 <= i < |parts| - 1 ==> parts[i] != [] && LowerChar(parts[i][|parts[i]| - 1]) !in sub
    ensures !Contains(Lower(Join(parts, "")), sub)
  {
    if |parts| >= 2 {
      var p, rest := parts[0], Join(parts[1..], "");
      JoinAvoids(parts[1..], sub);
      assert p + "" + rest == p + rest;
      LowerAppend(p, rest);
      ContainsAcross(Lower(p), Lower(rest), sub);
    }
  }

  /** An occurrence of `sub` inside an occurrence of `big` is an occurrence in `s`. */
  lemma ContainsTransitive(s: string, big: string, sub: string, offset: nat)
    requires Contains(s, big)
    requires MatchAt(big, sub, offset)
    ensures Contains(s, sub)
  {
    var i :| 0 <= i <= |s| && MatchAt(s, big, i);
    forall k | 0 <= k < |sub| ensures s[i + offset + k] == sub[k] {
      assert big[offset + k] == sub[k];
      assert s[i..i + |big|][offset + k] == s[i + offset + k];
    }
    assert MatchAt(s, sub, i + offset);
  }

  /** An occurrence in either part of a concatenation is an occurrence in the whole. */
  lemma ContainsAppend(x: string, y: string, sub: string)
    ensures Contains(x, sub) ==> Contains(x + y, sub)
    ensures Contains(y, sub) ==> Contains(x + y, sub)
  {
    if Contains(x, sub) {
      var i :| 0 <= i <= |x| && MatchAt(x, sub, i);
      assert (x + y)[i..i + |sub|] == x[i..i + |sub|];
      assert MatchAt(x + y, sub, i);
    }
    if Contains(y, sub) {
      var i :| 0 <= i <= |y| && MatchAt(y, sub, i);
      assert (x + y)[|x| + i..|x| + i + |sub|] == y[i..i + |sub|];
      assert MatchAt(x + y, sub, |x| + i);
    }
  }

  // ---------------------------------------------------------------------
  // startswith

  predicate StartsWith(s: string, prefix: string) {
    |prefix| <= |s| && s[..|prefix|] == prefix
  }

  lemma StartsWithAppended(x: string, y: string)
    ensures StartsWith(x + y, x)
  {
    assert (x + y)[..|x|] == x;
  }

  /** A prefix of `x` is a prefix of anything `x` starts. */
  lemma StartsWithAppend(x: string, y: string, prefix: string)
    requires StartsWith(x, prefix)
    ensures StartsWith(x + y, prefix)
  {
    assert (x + y)[..|prefix|] == x[..|prefix|];
  }

  /** A text has its prefix's characters. */
  lemma StartsWithAt(s: string, prefix: string, k: nat)
    requires StartsWith(s, prefix) && k < |prefix|
    ensures k < |s| && s[k] == prefix[k]
  {
    assert s[..|prefix|][k] == s[k];
  }

  /** Texts that start with prefixes differing at one position are different. */
  lemma StartsWithDiffer(a: string, b: string, p: string, q: string, k: nat)
    requires StartsWith(a, p) && StartsWith(b, q)
    requires k < |p| && k < |q| && p[k] != q[k]
    ensures a != b
  {
    assert a[k] == p[k] && b[k] == q[k];
  }

  // ---------------------------------------------------------------------
  // strip() and rstrip(c)

  /** The whitespace `str.strip()` removes, restricted to ASCII and Latin-1. */
  predicate IsSpace(c: char) {
    var n := c as int;
    n == 0x20 || 0x09 <= n <= 0x0D || 0x1C <= n <= 0x1F || n == 0x85 || n == 0xA0
  }

  predicate AllSpace(s: string) {
    forall i :: 0 <= i < |s| ==> IsSpace(s[i])
  }

  /** The end of the run of whitespace that starts at `i`. */
  function SpaceRunEnd(s: string, i: nat): (n: nat)
    requires i <= |s|
    decreases |s| - i
    ensures i <= n <= |s|
    ensures forall k :: i <= k < n ==> IsSpace(s[k])
    ensures n == |s| || !IsSpace(s[n])
  {
    if i < |s| && IsSpace(s[i]) then SpaceRunEnd(s, i + 1) else i
  }

  /** The start of the run of whitespace that ends at `j`. */
  function SpaceRunStart(s: string, j: nat): (n: nat)
    requires j <= |s|
    ensures n <= j
    ensures forall k :: n <= k < j ==> IsSpace(s[k])
    ensures n == 0 || !IsSpace(s[n - 1])
  {
    if j > 0 && IsSpace(s[j - 1]) then SpaceRunStart(s, j - 1) else j
  }

  /** Drop leading whitespace. */
  function LStrip(s: string): (r: string)
    ensures |r| <= |s| && r == s[|s| - |r|..]
    ensures AllSpace(s[..|s| - |r|])
    ensures r == [] || !IsSpace(r[0])
  {
    s[SpaceRunEnd(s, 0)..]
  }

  /** Drop trailing whitespace. */
  function RStrip(s: string): (r: string)
    ensures |r| <= |s| && r == s[..|r|]
    ensures AllSpace(s[|r|..])
    ensures r == [] || !IsSpace(r[|r| - 1])
  {
    s[..SpaceRunStart(s, |s|)]
  }

  /** `s.strip()`. */
  function Strip(s: string): string {
    LStrip(RStrip(s))
  }

  /**
   * `s.strip()` is `s` with a run of whitespace removed at each end, and
   * what is left neither starts nor ends with whitespace.
   */
  lemma StripShape(s: string)
    ensures var r := Strip(s); var k := |RStrip(s)| - |r|;
      0 <= k && k + |r| <= |s| && s[k..k + |r|] == r && AllSpace(s[..k]) && AllSpace(s[k + |r|..])
    ensures var r := Strip(s); r == [] || (!IsSpace(r[0]) && !IsSpace(r[|r| - 1]))
  {
    var t := RStrip(s);
    var r := LStrip(t);
    var k := |t| - |r|;
    assert s[..k] == t[..k];
    assert s[k..k + |r|] == t[k..];
    if r != [] {
      assert r[|r| - 1] == t[|t| - 1];
    }
  }

  lemma StripIdempotent(s: string)
    ensures Strip(Strip(s)) == Strip(s)
  {
    StripShape(s);
    var r := Strip(s);
    assert RStrip(r) == r;
    assert LStrip(r) == r;
  }

  /** The start of the run of `c` that ends at `j`. */
  function CharRunStart(s: string, c: char, j: nat): (n: nat)
    requires j <= |s|
    ensures n <= j
    ensures forall k :: n <= k < j ==> s[k] == c
    ensures n == 0 || s[n - 1] != c
  {
    if j > 0 && s[j - 1] == c then CharRunStart(s, c, j - 1) else j
  }

  /** `s.rstrip(c)`: drop every trailing `c`. */
  function RStripChar(s: string, c: char): (r: string)
    ensures |r| <= |s| && r == s[..|r|]
    ensures forall i :: |r| <= i < |s| ==> s[i] == c
    ensures r == [] || r[|r| - 1] != c
  {
    s[..CharRunStart(s, c, |s|)]
  }

  /** The run of `c` ending at `j` is the same in any extension of `s`. */
  lemma {:induction false} CharRunStartPrefix(s: string, t: string, c: char, j: nat)
    requires j <= |s|
    ensures CharRunStart(s + t, c, j) == CharRunStart(s, c, j)
    decreases j
  {
    if j > 0 {
      assert (s + t)[j - 1] == s[j - 1];
      CharRunStartPrefix(s, t, c, j - 1);
    }
  }

  /** A text not ending in `c` is its own `rstrip(c)`. */
  lemma RStripCharNone(s: string, c: char)
    requires s == [] || s[|s| - 1] != c
    ensures RStripChar(s, c) == s
  {
  }

  /** One more trailing `c` makes no difference to `rstrip(c)`. */
  lemma RStripCharSnoc(s: string, c: char)
    ensures RStripChar(s + [c], c) == RStripChar(s, c)
  {
    CharRunStartPrefix(s, [c], c, |s|);
    assert (s + [c])[..CharRunStart(s, c, |s|)] == s[..CharRunStart(s, c, |s|)];
  }

  // ---------------------------------------------------------------------
  // split(sep) and sep.join(parts)

  /** The first index at or after `i` where `sep` occurs in `s`. */
  function FindFrom(s: string, sep: string, i: nat): (r: Option<nat>)
    decreases |s| - i
    ensures r.Some? ==> i <= r.value && MatchAt(s, sep, r.value)
    ensures r.Some? ==> forall j :: i <= j < r.value ==> !MatchAt(s, sep, j)
    ensures r.None? ==> forall j :: i <= j ==> !MatchAt(s, sep, j)
  {
    if i + |sep| > |s| then None
    else if MatchAt(s, sep, i) then Some(i)
    else FindFrom(s, sep, i + 1)
  }

  /** `s.split(sep)` for a non-empty separator: the pieces between non-overlapping occurrences, left to right. */
  function Split(s: string, sep: string): (parts: seq<string>)
    requires |sep| > 0
    decreases |s|
  {
    match FindFrom(s, sep, 0)
    case None => [s]
    case Some(i) => [s[..i]] + Split(s[i + |sep|..], sep)
  }

  /** `sep.join(parts)`. */
  function Join(parts: seq<string>, sep: string): string {
    if |parts| == 0 then ""
    else if |parts| == 1 then parts[0]
    else parts[0] + sep + Join(parts[1..], sep)
  }

  /** A join starts with its first piece. */
  lemma JoinStartsWith(parts: seq<string>, sep: string)
    requires |parts| >= 1
    ensures StartsWith(Join(parts, sep), parts[0])
  {
  }

  /** A match inside a prefix of `s` is a match in `s`. */
  lemma MatchInPrefix(s: string, sep: string, n: nat, j: int)
    requires n <= |s| && MatchAt(s[..n], sep, j)
    ensures MatchAt(s, sep, j)
  {
    assert s[..n][j..j + |sep|] == s[j..j + |sep|];
  }

  /** A text is what comes before an occurrence, the occurrence, and what follows it. */
  lemma AroundMatch(s: string, sep: string, i: nat)
    requires MatchAt(s, sep, i)
    ensures s == s[..i] + sep + s[i + |sep|..]
  {
    assert s == s[..i] + s[i..i + |sep|] + s[i + |sep|..];
  }

  /** One step of `split`: the text before the first separator, then the split of the rest. */
  lemma SplitStep(s: string, sep: string, i: nat)
    requires |sep| > 0 && FindFrom(s, sep, 0) == Some(i)
    ensures i + |sep| <= |s|
    ensures Split(s, sep) == [s[..i]] + Split(s[i + |sep|..], sep)
    ensures s == s[..i] + sep + s[i + |sep|..]
  {
    AroundMatch(s, sep, i);
  }

  lemma JoinCons(first: string, rest: seq<string>, sep: string)
    requires |rest| >= 1
    ensures Join([first] + rest, sep) == first + sep + Join(rest, sep)
  {
    assert ([first] + rest)[1..] == rest;
  }

  /** Splitting never loses or invents text: joining the pieces with the separator gives the string back. */
  lemma {:induction false} SplitJoin(s: string, sep: string)
    requires |sep| > 0
    ensures |Split(s, sep)| >= 1
    ensures Join(Split(s, sep), sep) == s
    decreases |s|
  {
    match FindFrom(s, sep, 0)
    case None =>
    case Some(i) =>
      SplitStep(s, sep, i);
      var rest := s[i + |sep|..];
      SplitJoin(rest, sep);
      JoinCons(s[..i], Split(rest, sep), sep);
  }

  /** No piece of a split contains the separator. */
  lemma {:induction false} SplitPiecesFree(s: string, sep: string)
    requires |sep| > 0
    ensures forall k :: 0 <= k < |Split(s, sep)| ==> !Contains(Split(s, sep)[k], sep)
    decreases |s|
  {
    match FindFrom(s, sep, 0)
    case None =>
    case Some(i) =>
      var rest := s[i + |sep|..];
      SplitPiecesFree(rest, sep);
      var parts := Split(s, sep);
      forall j | 0 <= j <= i && MatchAt(s[..i], sep, j) ensures false {
        MatchInPrefix(s, sep, i, j);
      }
      assert !Contains(parts[0], sep);
      forall k | 0 <= k < |parts| ensures !Contains(parts[k], sep) {
        if k > 0 { assert parts[k] == Split(rest, sep)[k - 1]; }
      }
  }

  /** There is more than one piece exactly when the separator occurs. */
  lemma SplitCount(s: string, sep: string)
    requires |sep| > 0
    ensures |Split(s, sep)| > 1 <==> Contains(s, sep)
  {
    match FindFrom(s, sep, 0)
    case None =>
    case Some(i) =>
      SplitJoin(s[i + |sep|..], sep);
      assert MatchAt(s, sep, i);
  }

  /** The first occurrence of a one-character separator is the first position holding that character. */
  lemma FindCharAfter(a: string, c: char, b: string)
    requires c !in a
    ensures FindFrom(a + [c] + b, [c], 0) == Some(|a|)
  {
    var s := a + [c] + b;
    assert MatchAt(s, [c], |a|);
    forall i | 0 <= i < |a| ensures !MatchAt(s, [c], i) {
      assert s[i..i + 1] == [a[i]];
    }
  }

  lemma FindCharAbsent(s: string, c: char)
    requires c !in s
    ensures FindFrom(s, [c], 0).None?
  {
    forall i | 0 <= i ensures !MatchAt(s, [c], i) {
      if i < |s| {
        assert s[i..i + 1] == [s[i]];
      }
    }
  }

  /**
   * Joining pieces without the separator character and splitting the result
   * again gives the pieces back.
   */
  lemma {:induction false} JoinSplit(parts: seq<string>, c: char)
    requires |parts| >= 1 && forall k :: 0 <= k < |parts| ==> c !in parts[k]
    ensures Split(Join(parts, [c]), [c]) == parts
    decreases |parts|
  {
    if |parts| == 1 {
      FindCharAbsent(parts[0], c);
    } else {
      var rest := Join(parts[1..], [c]);
      var s := parts[0] + [c] + rest;
      assert Join(parts, [c]) == s;
      FindCharAfter(parts[0], c, rest);
      SplitStep(s, [c], |parts[0]|);
      assert s[..|parts[0]|] == parts[0] && s[|parts[0]| + 1..] == rest;
      JoinSplit(parts[1..], c);
      assert Split(s, [c]) == [parts[0]] + parts[1..];
      assert parts == [parts[0]] + parts[1..];
    }
  }

  /** Every piece of a join, with the separator before it, occurs in the separator followed by the join. */
  lemma {:induction false} JoinContains(parts: seq<string>, sep: string, k: nat)
    requires k < |parts|
    ensures Contains(sep + Join(parts, sep), sep + parts[k])
    decreases |parts|
  {
    var s := sep + Join(parts, sep);
    if |parts| == 1 || k == 0 {
      StartsWithAppended(sep + parts[0], if |parts| == 1 then "" else sep + Join(parts[1..], sep));
      assert s == (sep + parts[0]) + (if |parts| == 1 then "" else sep + Join(parts[1..], sep));
      assert MatchAt(s, sep + parts[0], 0);
    } else {
      JoinContains(parts[1..], sep, k - 1);
      assert s == (sep + parts[0]) + (sep + Join(parts[1..], sep));
      ContainsAppend(sep + parts[0], sep + Join(parts[1..], sep), sep + parts[k]);
    }
  }

  /** Joining a non-empty list and one more piece appends the separator and that piece. */
  lemma {:induction false} JoinSnoc(parts: seq<string>, last: string, sep: string)
    requires |parts| >= 1
    ensures Join(parts + [last], sep) == Join(parts, sep) + sep + last
    decreases |parts|
  {
    if |parts| == 1 {
      assert parts + [last] == [parts[0], last];
    } else {
      assert (parts + [last])[1..] == parts[1..] + [last];
      JoinSnoc(parts[1..], last, sep);
    }
  }

  /** The last piece of a split is what follows the last occurrence of the separator. */
  lemma SplitLast(s: string, sep: string)
    requires |sep| > 0 && Contains(s, sep)
    ensures var parts := Split(s, sep);
      var last := parts[|parts| - 1];
      !Contains(last, sep) && |last| + |sep| <= |s| && s[|s| - |last| - |sep|..] == sep + last
  {
    SplitJoin(s, sep);
    SplitPiecesFree(s, sep);
    SplitCount(s, sep);
    JoinLast(Split(s, sep), sep);
  }

  /** A join of several pieces ends with the separator and the last piece. */
  lemma JoinLast(parts: seq<string>, sep: string)
    requires |parts| >= 2
    ensures var s := Join(parts, sep); var last := parts[|parts| - 1];
      |last| + |sep| <= |s| && s[|s| - |last| - |sep|..] == sep + last
  {
    var n := |parts|;
    var front := parts[..n - 1];
    assert front + [parts[n - 1]] == parts;
    JoinSnoc(front, parts[n - 1], sep);
    EndsWithLast(Join(front, sep), sep, parts[n - 1]);
  }

  lemma EndsWithLast(front: string, sep: string, last: string)
    ensures var s := front + sep + last; s[|s| - |last| - |sep|..] == sep + last
  {
    var s := front + sep + last;
    assert s == front + (sep + last);
  }

  /** The first piece of a split is what precedes the first occurrence of the separator. */
  lemma SplitFirst(s: string, sep: string)
    requires |sep| > 0
    ensures var first := Split(s, sep)[0];
      !Contains(first, sep) && StartsWith(s, first)
      && (first == s || (StartsWith(s, first + sep)))
  {
    SplitPiecesFree(s, sep);
    match FindFrom(s, sep, 0)
    case None =>
    case Some(i) =>
      assert Split(s, sep)[0] == s[..i];
      assert s[i..i + |sep|] == sep;
      assert s[..i + |sep|] == s[..i] + sep;
  }

  /**
   * The first piece, split at `sep2`, of the last piece of a split at `sep`:
   * it holds no `sep2`, and it begins the text after the last `sep`, whole
   * or followed by `sep2`.
   */
  lemma FirstOfLast(s: string, sep: string, sep2: string)
    requires |sep| > 0 && |sep2| > 0 && Contains(s, sep)
    ensures var parts := Split(s, sep);
      var tail := parts[|parts| - 1];
      var first := Split(tail, sep2)[0];
      !Contains(first, sep2)
      && |sep| + |tail| <= |s| && s[|s| - |tail| - |sep|..] == sep + tail
      && !Contains(tail, sep)
      && StartsWith(tail, first)
      && (tail == first || StartsWith(tail, first + sep2))
  {
    var parts := Split(s, sep);
    SplitLast(s, sep);
    SplitFirst(parts[|parts| - 1], sep2);
  }

  // ---------------------------------------------------------------------
  // str(n) for integers

  function DigitChar(d: nat): (c: char)
    requires d < 10
    ensures '0' <= c <= '9'
  {
    ('0' as int + d) as char
  }

  /** The decimal digits of `n`, as `str(n)` writes them. */
  function NatToString(n: nat): (r: string)
    ensures |r| >= 1
    ensures forall i :: 0 <= i < |r| ==> '0' <= r[i] <= '9'
    ensures n < 10 <==> |r| == 1
  {
    if n < 10 then [DigitChar(n)] else NatToString(n / 10) + [DigitChar(n % 10)]
  }

  /** Different numbers have different decimal forms. */
  lemma {:induction false} NatToStringInjective(m: nat, n: nat)
    requires NatToString(m) == NatToString(n)
    ensures m == n
  {
    var r := NatToString(m);
    if m >= 10 && n >= 10 {
      assert NatToString(m / 10) == r[..|r| - 1] == NatToString(n / 10);
      NatToStringInjective(m / 10, n / 10);
      assert DigitChar(m % 10) == r[|r| - 1] == DigitChar(n % 10);
    }
  }

  /** `str(n)` for any integer: a minus sign in front of the digits of a negative one. */
  function IntText(n: int): string {
    if n < 0 then "-" + NatToString(-n) else NatToString(n)
  }
}
