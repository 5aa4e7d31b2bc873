/**
 * The string primitives the widget leans on, with JavaScript's meaning:
 * `startsWith`, `includes`, `indexOf`, `split`, `join`, `trim`,
 * `toLowerCase` and a global replace of a literal pattern.
 */
module Text {
  import opened Wrappers

  /** The whitespace of a regular-expression `\s` and of `trim()`, restricted to the common code points. */
  predicate IsSpace(c: char) {
    c == ' ' || c == '\t' || c == '\n' || c == '\r' || c == '\U{B}' || c == '\U{C}'
    || c == '\U{A0}' || c == '\U{2028}' || c == '\U{2029}' || c == '\U{FEFF}'
  }

  /** The characters a regular-expression `.` does not match. */
  predicate IsLineTerminator(c: char) {
    c == '\n' || c == '\r' || c == '\U{2028}' || c == '\U{2029}'
  }

  /** A regular-expression `\d`: ASCII digits only. */
  predicate IsDigit(c: char) {
    '0' <= c <= '9'
  }

  predicate IsBlank(s: string) {
    forall i :: 0 <= i < |s| ==> IsSpace(s[i])
  }

  /** `s.startsWith(p)`, compared character by character. */
  predicate StartsWith(s: string, p: string)
    ensures StartsWith(s, p) ==> |p| <= |s|
    decreases |p|
  {
    |p| == 0 || (|s| > 0 && s[0] == p[0] && StartsWith(s[1..], p[1..]))
  }

  /** `p` occurs in `s` starting at index `i`. */
  predicate OccursAt(s: string, p: string, i: int) {
    0 <= i && i + |p| <= |s| && s[i..i + |p|] == p
  }

  /** A string starts with `p` exactly when `p` occurs in it at index 0. */
  lemma {:induction false} StartsWithIff(s: string, p: string)
    ensures StartsWith(s, p) <==> OccursAt(s, p, 0)
    decreases |p|
  {
    if |p| > 0 && |s| > 0 {
      StartsWithIff(s[1..], p[1..]);
      if s[0] == p[0] && OccursAt(s[1..], p[1..], 0) {
        var a := s[..|p|];
        forall k | 0 <= k < |p| ensures a[k] == p[k] {
          if k > 0 {
            assert s[1..][..|p| - 1][k - 1] == p[1..][k - 1];
          }
        }
        assert a == p;
      }
      if OccursAt(s, p, 0) {
        var a := s[1..][..|p| - 1];
        forall k | 0 <= k < |p| - 1 ensures a[k] == p[1..][k] {
          assert s[..|p|][k + 1] == p[k + 1];
        }
        assert a == p[1..];
        assert s[..|p|][0] == p[0];
      }
    }
  }

  /** `s.includes(p)`. */
  predicate Contains(s: string, p: string) {
    exists i | 0 <= i <= |s| :: OccursAt(s, p, i)
  }

  lemma OccursShift(s: string, p: string)
    requires |s| > 0
    ensures forall i :: 1 <= i ==> (OccursAt(s, p, i) <==> OccursAt(s[1..], p, i - 1))
    ensures forall i :: 0 <= i ==> (OccursAt(s[1..], p, i) ==> OccursAt(s, p, i + 1))
  {
    forall i | 1 <= i && OccursAt(s, p, i)
      ensures OccursAt(s[1..], p, i - 1)
    {
      assert s[1..][i - 1..i - 1 + |p|] == s[i..i + |p|];
    }
    forall i | 1 <= i && OccursAt(s[1..], p, i - 1)
      ensures OccursAt(s, p, i)
    {
      assert s[1..][i - 1..i - 1 + |p|] == s[i..i + |p|];
    }
    forall i | 0 <= i && OccursAt(s[1..], p, i)
      ensures OccursAt(s, p, i + 1)
    {
      assert s[1..][i..i + |p|] == s[i + 1..i + 1 + |p|];
    }
  }

  /** An occurrence inside a part of a string is an occurrence in the whole string. */
  lemma OccursInPart(s: string, p: string, lo: nat, hi: nat, i: int)
    requires lo <= hi <= |s| && OccursAt(s[lo..hi], p, i)
    ensures OccursAt(s, p, lo + i)
  {
    var w := s[lo..hi];
    var inner, outer := w[i..i + |p|], s[lo + i..lo + i + |p|];
    forall k | 0 <= k < |p|
      ensures inner[k] == outer[k]
    {
      assert w[i + k] == s[lo + i + k];
    }
    assert inner == outer;
  }

  /** Containment of substrings is transitive. */
  lemma ContainsTrans(a: string, b: string, c: string)
    requires Contains(a, b) && Contains(b, c)
    ensures Contains(a, c)
  {
    var i :| 0 <= i <= |a| && OccursAt(a, b, i);
    var j :| 0 <= j <= |b| && OccursAt(b, c, j);
    assert b == a[i..i + |b|];
    OccursInPart(a, c, i, i + |b|, j);
  }

  /** The index of the first occurrence of `p` in `s` (`s.indexOf(p)`), if any. */
  function Find(s: string, p: string): (r: Option<nat>)
    requires |p| > 0
    ensures r.Some? ==> r.value + |p| <= |s|
    decreases |s|
  {
    if |s| < |p| then None
    else if StartsWith(s, p) then Some(0)
    else
      match Find(s[1..], p)
      case None => None
      case Some(i) => Some(i + 1)
  }

  /** `Find` returns the first occurrence, and nothing exactly when there is none. */
  lemma {:induction false} FindIsFirst(s: string, p: string)
    requires |p| > 0
    ensures Find(s, p).Some? ==> OccursAt(s, p, Find(s, p).value)
    ensures Find(s, p).Some? ==> forall k :: 0 <= k < Find(s, p).value ==> !OccursAt(s, p, k)
    ensures Find(s, p).None? <==> !Contains(s, p)
    decreases |s|
  {
    StartsWithIff(s, p);
    if |s| < |p| {
    } else if StartsWith(s, p) {
    } else {
      OccursShift(s, p);
      FindIsFirst(s[1..], p);
      if Contains(s, p) {
        var i :| 0 <= i <= |s| && OccursAt(s, p, i);
        assert i != 0;
        assert OccursAt(s[1..], p, i - 1);
      }
      if Contains(s[1..], p) {
        var i :| 0 <= i <= |s[1..]| && OccursAt(s[1..], p, i);
        assert OccursAt(s, p, i + 1);
      }
    }
  }

  /** The first occurrence is the one before which nothing occurs. */
  lemma FindFirst(s: string, p: string, i: nat)
    requires |p| > 0 && OccursAt(s, p, i)
    requires forall k :: 0 <= k < i ==> !OccursAt(s, p, k)
    ensures Find(s, p) == Some(i)
  {
    FindIsFirst(s, p);
  }

  /** Appending text after the first occurrence does not move it. */
  lemma FindAppend(s: string, t: string, p: string)
    requires |p| > 0 && Find(s, p).Some?
    ensures Find(s + t, p) == Find(s, p)
  {
    FindIsFirst(s, p);
    var i := Find(s, p).value;
    var u := s + t;
    forall k | 0 <= k <= i
      ensures OccursAt(u, p, k) <==> OccursAt(s, p, k)
    {
      if k + |p| <= |s| {
        var a, b := u[k..k + |p|], s[k..k + |p|];
        forall j | 0 <= j < |p| ensures a[j] == b[j] {
          assert a[j] == u[k + j] && b[j] == s[k + j];
        }
        assert a == b;
      }
    }
    FindFirst(u, p, i);
  }

  /** `s.split(sep)` for a non-empty literal separator: the pieces between leftmost, non-overlapping occurrences. */
  function Split(s: string, sep: string): (r: seq<string>)
    requires |sep| > 0
    ensures |r| >= 1
    decreases |s|
  {
    match Find(s, sep)
    case None => [s]
    case Some(i) => [s[..i]] + Split(s[i + |sep|..], sep)
  }

  /** `parts.join(sep)`. */
  function Join(parts: seq<string>, sep: string): string
  {
    if |parts| == 0 then ""
    else if |parts| == 1 then parts[0]
    else parts[0] + sep + Join(parts[1..], sep)
  }

  function Last<T>(s: seq<T>): T
    requires |s| > 0
  {
    s[|s| - 1]
  }

  function AllButLast<T>(s: seq<T>): seq<T>
    requires |s| > 0
  {
    s[..|s| - 1]
  }

  /** Splitting loses nothing: joining the pieces back gives the original string. */
  lemma {:induction false} SplitJoin(s: string, sep: string)
    requires |sep| > 0
    ensures Join(Split(s, sep), sep) == s
    decreases |s|
  {
    FindIsFirst(s, sep);
    match Find(s, sep)
    case None =>
    case Some(i) =>
      var rest := s[i + |sep|..];
      var r := Split(rest, sep);
      SplitJoin(rest, sep);
      assert Split(s, sep) == [s[..i]] + r;
      assert ([s[..i]] + r)[1..] == r;
      assert Join([s[..i]] + r, sep) == s[..i] + sep + Join(r, sep);
      assert s == s[..i] + s[i..i + |sep|] + rest;
  }

  /** No piece of a split contains the separator. */
  lemma {:induction false} SplitPiecesFree(s: string, sep: string)
    requires |sep| > 0
    ensures forall k :: 0 <= k < |Split(s, sep)| ==> !Contains(Split(s, sep)[k], sep)
    decreases |s|
  {
    FindIsFirst(s, sep);
    match Find(s, sep)
    case None =>
    case Some(i) =>
      var rest := s[i + |sep|..];
      SplitPiecesFree(rest, sep);
      if Contains(s[..i], sep) {
        var j :| 0 <= j <= i && OccursAt(s[..i], sep, j);
        OccursInPart(s, sep, 0, i, j);
        assert false;
      }
      assert Split(s, sep) == [s[..i]] + Split(rest, sep);
  }

  lemma SplitAt(s: string, sep: string, i: nat)
    requires |sep| > 0 && Find(s, sep) == Some(i)
    ensures i + |sep| <= |s|
    ensures Split(s, sep) == [s[..i]] + Split(s[i + |sep|..], sep)
  {
  }

  /** Text appended after the first separator only changes what follows it. */
  lemma SplitAppendAfter(s: string, t: string, sep: string, i: nat)
    requires |sep| > 0 && Find(s, sep) == Some(i)
    ensures i + |sep| <= |s|
    ensures Split(s + t, sep) == [s[..i]] + Split(s[i + |sep|..] + t, sep)
  {
    var u := s + t;
    FindAppend(s, t, sep);
    SplitAt(u, sep, i);
    assert u[..i] == s[..i];
    assert u[i + |sep|..] == s[i + |sep|..] + t;
  }

  lemma SeqAssoc<T>(a: seq<T>, b: seq<T>, c: seq<T>)
    ensures a + (b + c) == (a + b) + c
  {
  }

  lemma ConsAllButLast<T>(x: T, xs: seq<T>, ys: seq<T>)
    requires |xs| > 0
    ensures Last([x] + xs) == Last(xs)
    ensures [x] + (AllButLast(xs) + ys) == AllButLast([x] + xs) + ys
  {
    assert AllButLast([x] + xs) == [x] + AllButLast(xs);
  }

  /**
   * Splitting is incremental: text appended to a string only affects the
   * last piece, which is split again together with the new text.
   */
  lemma {:induction false} SplitAppend(s: string, t: string, sep: string)
    requires |sep| > 0
    ensures Split(s + t, sep) == AllButLast(Split(s, sep)) + Split(Last(Split(s, sep)) + t, sep)
    decreases |s|
  {
    match Find(s, sep)
    case None =>
      assert Split(s, sep) == [s];
      assert AllButLast([s]) == [];
    case Some(i) =>
      var rest := s[i + |sep|..];
      SplitAppendAfter(s, t, sep, i);
      SplitAppend(rest, t, sep);
      SplitAt(s, sep, i);
      var pieces := Split(rest, sep);
      ConsAllButLast(s[..i], pieces, Split(Last(pieces) + t, sep));
  }

  /** Slices of a string's tail, seen as slices of the string. */
  lemma TailSlices(s: string, i: nat, m: nat)
    requires i <= m < |s|
    ensures s[1..][m..] == s[m + 1..]
    ensures [s[0]] + s[1..][..i] == s[..i + 1]
  {
  }

  /** Past a non-matching first character, the search goes on one character later. */
  lemma FindCons(s: string, sep: string)
    requires 0 < |sep| <= |s| && !StartsWith(s, sep)
    ensures Find(s, sep) == match Find(s[1..], sep) case None => None case Some(i) => Some(i + 1)
  {
  }

  /** The split of a string whose first separator is at `i + 1`, against the split of its tail. */
  lemma SplitConsAt(s: string, sep: string, i: nat)
    requires |sep| > 0 && |s| > 0 && Find(s, sep) == Some(i + 1) && Find(s[1..], sep) == Some(i)
    ensures Split(s, sep) == [[s[0]] + Split(s[1..], sep)[0]] + Split(s[1..], sep)[1..]
  {
    var t := s[1..];
    var rest := t[i + |sep|..];
    calc {
      Split(s, sep);
      { SplitAt(s, sep, i + 1); }
      [s[..i + 1]] + Split(s[i + 1 + |sep|..], sep);
      { TailSlices(s, i, i + |sep|); }
      [[s[0]] + t[..i]] + Split(rest, sep);
      { SplitAt(t, sep, i); assert Split(t, sep)[1..] == Split(rest, sep); }
      [[s[0]] + Split(t, sep)[0]] + Split(t, sep)[1..];
    }
  }

  /** A string that does not start with the separator splits with its first character glued to the first piece. */
  lemma SplitCons(s: string, sep: string)
    requires |sep| > 0 && |s| > 0 && !StartsWith(s, sep)
    ensures Split(s, sep) == [[s[0]] + Split(s[1..], sep)[0]] + Split(s[1..], sep)[1..]
  {
    var t := s[1..];
    if |s| < |sep| {
      assert Find(t, sep).None?;
    } else {
      FindCons(s, sep);
    }
    match Find(t, sep)
    case None =>
      assert Split(s, sep) == [s] && Split(t, sep) == [t];
      assert [s[0]] + t == s;
    case Some(i) =>
      SplitConsAt(s, sep, i);
  }

  lemma JoinCons(c: char, parts: seq<string>, sep: string)
    requires |parts| > 0
    ensures Join([[c] + parts[0]] + parts[1..], sep) == [c] + Join(parts, sep)
  {
    var q := [[c] + parts[0]] + parts[1..];
    assert q[1..] == parts[1..];
  }

  /** A global replace of a literal pattern, scanning left to right as `replace(/pat/g, rep)` does. */
  function ReplaceAll(s: string, pat: string, rep: string): string
    requires |pat| > 0
    decreases |s|
  {
    if |s| == 0 then ""
    else if StartsWith(s, pat) then rep + ReplaceAll(s[|pat|..], pat, rep)
    else [s[0]] + ReplaceAll(s[1..], pat, rep)
  }

  /** The scanning replace agrees with `s.split(pat).join(rep)`: every leftmost, non-overlapping occurrence is replaced. */
  lemma {:induction false} ReplaceAllIsSplitJoin(s: string, pat: string, rep: string)
    requires |pat| > 0
    ensures ReplaceAll(s, pat, rep) == Join(Split(s, pat), rep)
    decreases |s|
  {
    if |s| == 0 {
      assert Split(s, pat) == [s];
    } else if StartsWith(s, pat) {
      assert Find(s, pat) == Some(0);
      ReplaceAllIsSplitJoin(s[|pat|..], pat, rep);
      var r := Split(s[|pat|..], pat);
      assert Split(s, pat) == [""] + r;
      assert ([""] + r)[1..] == r;
    } else {
      ReplaceAllIsSplitJoin(s[1..], pat, rep);
      SplitCons(s, pat);
      JoinCons(s[0], Split(s[1..], pat), rep);
    }
  }

  /** A pattern that does not occur is not replaced. */
  lemma {:induction false} ReplaceAllAbsent(s: string, pat: string, rep: string)
    requires |pat| > 0 && !Contains(s, pat)
    ensures ReplaceAll(s, pat, rep) == s
  {
    ReplaceAllIsSplitJoin(s, pat, rep);
    FindIsFirst(s, pat);
  }

  /** `s.trimStart()`: drops the leading whitespace and nothing else. */
  function TrimStart(s: string): (r: string)
    ensures |r| <= |s| && r == s[|s| - |r|..]
    ensures IsBlank(s[..|s| - |r|])
    ensures r != [] ==> !IsSpace(r[0])
    decreases |s|
  {
    if |s| > 0 && IsSpace(s[0]) then
      var r := TrimStart(s[1..]);
      assert s[..|s| - |r|] == [s[0]] + s[1..][..|s| - 1 - |r|];
      assert s[|s| - |r|..] == s[1..][|s| - 1 - |r|..];
      r
    else s
  }

  /** Leading blanks are exactly what `TrimStart` drops. */
  lemma {:induction false} TrimStartBlank(ws: string, x: string)
    requires IsBlank(ws) && (x == "" || !IsSpace(x[0]))
    ensures TrimStart(ws + x) == x
    decreases |ws|
  {
    if |ws| == 0 {
      assert ws + x == x;
    } else {
      assert (ws + x)[0] == ws[0] && (ws + x)[1..] == ws[1..] + x;
      TrimStartBlank(ws[1..], x);
    }
  }

  /** `s.trimEnd()`: drops the trailing whitespace and nothing else. */
  function TrimEnd(s: string): (r: string)
    ensures |r| <= |s| && r == s[..|r|]
    ensures IsBlank(s[|r|..])
    ensures r != [] ==> !IsSpace(r[|r| - 1])
    decreases |s|
  {
    if |s| > 0 && IsSpace(s[|s| - 1]) then
      var r := TrimEnd(s[..|s| - 1]);
      assert s[|r|..] == s[..|s| - 1][|r|..] + [s[|s| - 1]];
      r
    else s
  }

  /** `s.trim()`. */
  function Trim(s: string): string
  {
    TrimEnd(TrimStart(s))
  }

  /** `s.trim() === ''` exactly when `s` is all whitespace. */
  lemma TrimEmptyIffBlank(s: string)
    ensures Trim(s) == "" <==> IsBlank(s)
  {
    var t := TrimStart(s);
    if Trim(s) == "" {
      assert IsBlank(t[0..]);
      assert s == s[..|s| - |t|] + t;
    }
  }

  /** A trimmed string has no whitespace at either end, and trimming it again changes nothing. */
  lemma TrimmedEnds(s: string)
    ensures Trim(s) != "" ==> !IsSpace(Trim(s)[0]) && !IsSpace(Last(Trim(s)))
    ensures Trim(Trim(s)) == Trim(s)
  {
    var t := TrimStart(s);
    var r := TrimEnd(t);
    if r != "" {
      assert r[0] == t[0];
    }
    TrimNoop(r);
  }

  /** `m` sits in `s` at `k` with only whitespace around it. */
  predicate Padded(s: string, m: string, k: nat)
  {
    k + |m| <= |s| && s[k..k + |m|] == m && IsBlank(s[..k]) && IsBlank(s[k + |m|..])
  }

  /** `s.trim()` is the slice of `s` between a blank prefix and a blank suffix. */
  lemma TrimIsSlice(s: string)
    ensures Padded(s, Trim(s), |s| - |TrimStart(s)|)
  {
    var t := TrimStart(s);
    Padding(s, t, TrimEnd(t));
  }

  lemma Padding(s: string, t: string, r: string)
    requires |t| <= |s| && t == s[|s| - |t|..] && IsBlank(s[..|s| - |t|])
    requires |r| <= |t| && r == t[..|r|] && IsBlank(t[|r|..])
    ensures Padded(s, r, |s| - |t|)
  {
    var k := |s| - |t|;
    assert s[k..k + |r|] == r;
    assert s[k + |r|..] == t[|r|..];
  }

  /** A string with no whitespace at either end is its own trim. */
  lemma TrimNoop(s: string)
    requires s != "" ==> !IsSpace(s[0]) && !IsSpace(Last(s))
    ensures Trim(s) == s
  {
  }

  function LowerChar(c: char): char
  {
    if 'A' <= c <= 'Z' then (c as int + 32) as char else c
  }

  /** `s.toLowerCase()`, for the ASCII letters. */
  function Lower(s: string): string
  {
    seq(|s|, i requires 0 <= i < |s| => LowerChar(s[i]))
  }

  /** Concatenation of a sequence of strings, `parts.join('')`. */
  function Concat(parts: seq<string>): string
  {
    if |parts| == 0 then "" else parts[0] + Concat(parts[1..])
  }

  lemma ConcatSnoc(pre: seq<string>, x: string)
    ensures Concat(pre + [x]) == Concat(pre) + x
  {
    ConcatAppend(pre, [x]);
    assert Concat([x]) == x + Concat([]);
  }

  lemma {:induction false} ConcatAppend(a: seq<string>, b: seq<string>)
    ensures Concat(a + b) == Concat(a) + Concat(b)
  {
    if |a| > 0 {
      assert (a + b)[1..] == a[1..] + b;
      ConcatAppend(a[1..], b);
    } else {
      assert a + b == b;
    }
  }
}
