module Wrappers {

  /** The usual Some/None datatype, for values the source may be missing. */
  datatype Option<T> = None | Some(value: T)
}

/** The handful of std::string / str operations the backend relies on:
    ASCII lower-casing, `find`, trimming by a character set, erasing and
    replacing a fixed pattern. */
module Text {
  import opened Wrappers

  /** C's `::tolower` in the "C" locale: only 'A'..'Z' change. */
  function LowerChar(c: char): char
  {
    if 'A' <= c <= 'Z' then (c as int + 32) as char else c
  }

  function Lower(s: string): (r: string)
    ensures |r| == |s|
    ensures forall i :: 0 <= i < |s| ==> r[i] == LowerChar(s[i])
  {
    seq(|s|, i requires 0 <= i < |s| => LowerChar(s[i]))
  }

  /** `pat` occurs in `s` starting at index `i`. */
  predicate OccursAt(s: string, pat: string, i: nat)
  {
    i + |pat| <= |s| && s[i..i + |pat|] == pat
  }

  /** `s.find(pat, from)`: the least index at or after `from` where `pat` occurs. */
  function FindFrom(s: string, pat: string, from: nat): (r: Option<nat>)
    decreases |s| - from
    ensures r.Some? ==> from <= r.value && OccursAt(s, pat, r.value)
    ensures r.Some? ==> forall j: nat :: from <= j < r.value ==> !OccursAt(s, pat, j)
    ensures r.None? ==> forall j: nat :: from <= j ==> !OccursAt(s, pat, j)
  {
    if from + |pat| > |s| then None
    else if s[from..from + |pat|] == pat then Some(from)
    else FindFrom(s, pat, from + 1)
  }

  /** `s.find(pat)`, with `None` for `npos` (Python's -1). */
  function Find(s: string, pat: string): Option<nat>
  {
    FindFrom(s, pat, 0)
  }

  /** `s.find(pat) != npos`, Python's `pat in s`. */
  predicate Contains(s: string, pat: string)
  {
    Find(s, pat).Some?
  }

  /** `s.rfind(p, 0) == 0`, Python's `s.startswith(p)`. */
  predicate StartsWith(s: string, p: string)
  {
    |p| <= |s| && s[..|p|] == p
  }

  lemma ContainsIff(s: string, pat: string)
    ensures Contains(s, pat) <==> exists i: nat :: OccursAt(s, pat, i)
  {
    if Contains(s, pat) {
      assert OccursAt(s, pat, Find(s, pat).value);
    }
  }

  /** An occurrence inside a suffix is an occurrence in the whole string. */
  lemma OccursInSuffix(s: string, a: nat, pat: string, i: nat)
    requires a <= |s|
    requires OccursAt(s[a..], pat, i)
    ensures OccursAt(s, pat, a + i)
  {
    var t := s[a..];
    assert t[i..i + |pat|] == s[a + i..a + i + |pat|];
  }

  /** `r` is the slice of `s` that starts at index `a`. */
  predicate SliceAt(r: string, s: string, a: nat)
  {
    a + |r| <= |s| && s[a..a + |r|] == r
  }

  /** Drops leading characters of `ws` (`find_first_not_of`). */
  function TrimLeft(s: string, ws: char -> bool): (r: string)
    ensures |r| <= |s| && r == s[|s| - |r|..]
    ensures r == [] || !ws(r[0])
    ensures forall k :: 0 <= k < |s| - |r| ==> ws(s[k])
  {
    if s != [] && ws(s[0]) then TrimLeft(s[1..], ws) else s
  }

  /** Drops trailing characters of `ws` (`find_last_not_of`). */
  function TrimRight(s: string, ws: char -> bool): (r: string)
    ensures |r| <= |s| && r == s[..|r|]
    ensures r == [] || !ws(r[|r| - 1])
    ensures forall k :: |r| <= k < |s| ==> ws(s[k])
  {
    if s != [] && ws(s[|s| - 1]) then TrimRight(s[..|s| - 1], ws) else s
  }

  /** Both ends: `substr(l, r - l + 1)` or "" when every character is in `ws`;
      Python's `strip(chars)`. */
  function Trim(s: string, ws: char -> bool): (r: string)
    ensures |r| <= |s|
  {
    TrimRight(TrimLeft(s, ws), ws)
  }

  /** The trimmed text is a slice of the input that neither starts nor ends
      with a character of `ws`, and it is empty exactly when every character
      of the input is in `ws`. */
  lemma TrimIsSlice(s: string, ws: char -> bool)
    ensures var r := Trim(s, ws);
            && (r == [] || (!ws(r[0]) && !ws(r[|r| - 1])))
            && (r == [] <==> forall k :: 0 <= k < |s| ==> ws(s[k]))
            && exists a: nat :: SliceAt(r, s, a)
  {
    var l := TrimLeft(s, ws);
    var r := TrimRight(l, ws);
    assert r == s[|s| - |l|..|s| - |l| + |r|];
    assert SliceAt(r, s, |s| - |l|);
    assert r != [] ==> s[|s| - |l|] == r[0] && !ws(s[|s| - |l|]);
    assert r == [] ==> l == [];
  }

  /** Trimming with two sets that agree on every character of `s` gives the same result. */
  lemma {:induction false} TrimLeftAgree(s: string, x: char -> bool, y: char -> bool)
    requires forall k :: 0 <= k < |s| ==> (x(s[k]) <==> y(s[k]))
    ensures TrimLeft(s, x) == TrimLeft(s, y)
  {
    if s != [] && x(s[0]) {
      TrimLeftAgree(s[1..], x, y);
    }
  }

  lemma {:induction false} TrimRightAgree(s: string, x: char -> bool, y: char -> bool)
    requires forall k :: 0 <= k < |s| ==> (x(s[k]) <==> y(s[k]))
    ensures TrimRight(s, x) == TrimRight(s, y)
  {
    if s != [] && x(s[|s| - 1]) {
      TrimRightAgree(s[..|s| - 1], x, y);
    }
  }

  lemma SuffixAgree(s: string, a: nat, x: char -> bool, y: char -> bool)
    requires a <= |s|
    requires forall k :: 0 <= k < |s| ==> (x(s[k]) <==> y(s[k]))
    ensures forall k :: 0 <= k < |s| - a ==> (x(s[a..][k]) <==> y(s[a..][k]))
  {
    forall k | 0 <= k < |s| - a ensures x(s[a..][k]) <==> y(s[a..][k]) {
      assert s[a..][k] == s[a + k];
    }
  }

  lemma TrimAgree(s: string, x: char -> bool, y: char -> bool)
    requires forall k :: 0 <= k < |s| ==> (x(s[k]) <==> y(s[k]))
    ensures Trim(s, x) == Trim(s, y)
  {
    TrimLeftAgree(s, x, y);
    var l := TrimLeft(s, x);
    SuffixAgree(s, |s| - |l|, x, y);
    TrimRightAgree(l, x, y);
  }

  /** The C++ erase loop `while ((pos = s.find(pat)) != npos) s.erase(pos, |pat|)`,
      as a function: erase the first occurrence until none is left. */
  function EraseAll(s: string, pat: string): (r: string)
    requires |pat| > 0
    decreases |s|
    ensures Find(r, pat).None?
    ensures |r| <= |s|
    ensures Find(s, pat).None? ==> r == s
  {
    match Find(s, pat)
    case None => s
    case Some(p) => EraseAll(s[..p] + s[p + |pat|..], pat)
  }

  /** C++ `p = s.find(pat); if (p != npos) s.replace(p, |pat|, rep)`. */
  function ReplaceFirst(s: string, pat: string, rep: string): string
  {
    match Find(s, pat)
    case None => s
    case Some(p) => s[..p] + rep + s[p + |pat|..]
  }

  /** Python's `s.replace(pat, rep)`: a left-to-right scan that replaces every
      non-overlapping occurrence and never rescans the replacement text. */
  function ReplaceAll(s: string, pat: string, rep: string): string
    requires |pat| > 0
    decreases |s|
  {
    if |s| < |pat| then s
    else if s[..|pat|] == pat then rep + ReplaceAll(s[|pat|..], pat, rep)
    else [s[0]] + ReplaceAll(s[1..], pat, rep)
  }

  lemma {:induction false} ReplaceAllIdentity(s: string, pat: string, rep: string)
    requires |pat| > 0
    requires Find(s, pat).None?
    ensures ReplaceAll(s, pat, rep) == s
  {
    if |s| >= |pat| {
      assert !OccursAt(s, pat, 0);
      forall j: nat ensures !OccursAt(s[1..], pat, j) {
        if OccursAt(s[1..], pat, j) { OccursInSuffix(s, 1, pat, j); }
      }
      ReplaceAllIdentity(s[1..], pat, rep);
    }
  }

  /** No occurrence before `p` in `s` means none before `p - 1` in `s[1..]`. */
  lemma NoOccurrenceInTail(s: string, pat: string, p: nat)
    requires 0 < p <= |s|
    requires forall j: nat :: j < p ==> !OccursAt(s, pat, j)
    ensures forall j: nat :: j < p - 1 ==> !OccursAt(s[1..], pat, j)
  {
    forall j: nat | j < p - 1 ensures !OccursAt(s[1..], pat, j) {
      if OccursAt(s[1..], pat, j) { OccursInSuffix(s, 1, pat, j); }
    }
  }

  /** The scan copies a prefix that holds no occurrence unchanged. */
  lemma {:induction false} ReplaceAllSkip(s: string, pat: string, rep: string, p: nat)
    requires |pat| > 0 && p <= |s|
    requires forall j: nat :: j < p ==> !OccursAt(s, pat, j)
    ensures ReplaceAll(s, pat, rep) == s[..p] + ReplaceAll(s[p..], pat, rep)
  {
    if p > 0 {
      if |s| < |pat| {
        assert ReplaceAll(s[p..], pat, rep) == s[p..];
        assert s[..p] + s[p..] == s;
      } else {
        assert !OccursAt(s, pat, 0);
        assert ReplaceAll(s, pat, rep) == [s[0]] + ReplaceAll(s[1..], pat, rep);
        NoOccurrenceInTail(s, pat, p);
        ReplaceAllSkip(s[1..], pat, rep, p - 1);
        assert s[1..][p - 1..] == s[p..];
        assert [s[0]] + s[1..][..p - 1] == s[..p];
      }
    }
  }

  /** `s.replace(pat, rep)` replaces the first occurrence `find` reports and
      goes on after it. */
  lemma ReplaceAllAtFirst(s: string, pat: string, rep: string)
    requires |pat| > 0 && Find(s, pat).Some?
    ensures var p := Find(s, pat).value;
            ReplaceAll(s, pat, rep) == s[..p] + rep + ReplaceAll(s[p + |pat|..], pat, rep)
  {
    var p := Find(s, pat).value;
    ReplaceAllSkip(s, pat, rep, p);
    assert s[p..][..|pat|] == pat;
    assert s[p..][|pat|..] == s[p + |pat|..];
  }

  /** `pat` occurs in `s` at most once. */
  ghost predicate AtMostOnce(s: string, pat: string)
  {
    forall j: nat :: OccursAt(s, pat, j) ==> Find(s, pat) == Some(j)
  }

  /** With at most one occurrence, replacing the first and replacing all agree. */
  lemma ReplaceFirstIsReplaceAll(s: string, pat: string, rep: string)
    requires |pat| > 0
    requires AtMostOnce(s, pat)
    ensures ReplaceFirst(s, pat, rep) == ReplaceAll(s, pat, rep)
  {
    match Find(s, pat)
    case None =>
      ReplaceAllIdentity(s, pat, rep);
    case Some(p) =>
      NoOccurrenceAfterOnly(s, pat, p);
      ReplaceAllAtFirst(s, pat, rep);
      ReplaceAllIdentity(s[p + |pat|..], pat, rep);
  }

  lemma NoOccurrenceAfterOnly(s: string, pat: string, p: nat)
    requires |pat| > 0 && AtMostOnce(s, pat) && OccursAt(s, pat, p)
    ensures Find(s[p + |pat|..], pat).None?
  {
    var t := s[p + |pat|..];
    forall j: nat ensures !OccursAt(t, pat, j) {
      if OccursAt(t, pat, j) {
        OccursInSuffix(s, p + |pat|, pat, j);
      }
    }
  }

  lemma LowerAppend(a: string, b: string)
    ensures Lower(a + b) == Lower(a) + Lower(b)
  {
    assert forall i :: 0 <= i < |a| ==> (a + b)[i] == a[i];
    assert forall i :: |a| <= i < |a| + |b| ==> (a + b)[i] == b[i - |a|];
  }

  // Facts for working out `find` on concrete strings.

  /** A pattern with a character that does not occur in `s` is not found. */
  lemma {:induction false} FindMissingChar(s: string, pat: string, c: char, from: nat)
    requires c in pat && c !in s
    ensures FindFrom(s, pat, from) == None
    decreases |s| - from
  {
    if from + |pat| <= |s| {
      var k :| 0 <= k < |pat| && pat[k] == c;
      assert s[from + k] in s;
      assert s[from..from + |pat|][k] == s[from + k];
      FindMissingChar(s, pat, c, from + 1);
    }
  }

  /** The search runs past positions that do not hold the pattern's first character. */
  lemma {:induction false} FindSkipTo(s: string, pat: string, from: nat, stop: nat)
    requires |pat| > 0 && from <= stop <= |s|
    requires pat[0] !in s[from..stop]
    ensures FindFrom(s, pat, from) == FindFrom(s, pat, stop)
    decreases stop - from
  {
    if from < stop {
      assert s[from] == s[from..stop][0];
      if from + |pat| <= |s| {
        assert s[from..from + |pat|][0] == s[from];
      }
      assert s[from + 1..stop] == s[from..stop][1..];
      FindSkipTo(s, pat, from + 1, stop);
    }
  }

  /** The search runs past a position where the `j`-th character differs. */
  lemma FindStep(s: string, pat: string, k: nat, j: nat)
    requires k + |pat| <= |s| && j < |pat| && s[k + j] != pat[j]
    ensures FindFrom(s, pat, k) == FindFrom(s, pat, k + 1)
  {
    assert s[k..k + |pat|][j] == s[k + j];
  }

  /** The search stops at a position that holds the pattern. */
  lemma FindHere(s: string, pat: string, k: nat)
    requires OccursAt(s, pat, k)
    ensures FindFrom(s, pat, k) == Some(k)
  {
  }

  /** Nothing is found once the first character no longer occurs. */
  lemma FindNoneAfter(s: string, pat: string, from: nat)
    requires |pat| > 0 && from <= |s| && pat[0] !in s[from..]
    ensures FindFrom(s, pat, from) == None
  {
    FindSkipTo(s, pat, from, |s|);
  }

  lemma {:induction false} TrimLeftAt(s: string, ws: char -> bool, a: nat)
    requires a < |s| && !ws(s[a])
    requires forall k :: 0 <= k < a ==> ws(s[k])
    ensures TrimLeft(s, ws) == s[a..]
  {
    if a > 0 {
      assert ws(s[0]);
      var t := s[1..];
      assert forall k :: 0 <= k < a - 1 ==> t[k] == s[k + 1];
      TrimLeftAt(t, ws, a - 1);
      assert t[a - 1..] == s[a..];
    }
  }

  lemma {:induction false} TrimRightAt(s: string, ws: char -> bool, b: nat)
    requires 0 < b <= |s| && !ws(s[b - 1])
    requires forall k :: b <= k < |s| ==> ws(s[k])
    ensures TrimRight(s, ws) == s[..b]
  {
    if b < |s| {
      assert ws(s[|s| - 1]);
      var t := s[..|s| - 1];
      assert forall k :: b <= k < |t| ==> t[k] == s[k];
      TrimRightAt(t, ws, b);
      assert t[..b] == s[..b];
    }
  }

  lemma TrimRightOfSuffix(s: string, ws: char -> bool, a: nat, b: nat)
    requires a < b <= |s| && !ws(s[b - 1])
    requires forall k :: b <= k < |s| ==> ws(s[k])
    ensures TrimRight(s[a..], ws) == s[a..b]
  {
    var l := s[a..];
    assert l[b - a - 1] == s[b - 1];
    forall k | b - a <= k < |l| ensures ws(l[k]) {
      assert l[k] == s[a + k];
    }
    TrimRightAt(l, ws, b - a);
    assert l[..b - a] == s[a..b];
  }

  lemma TrimUnfold(s: string, ws: char -> bool)
    ensures Trim(s, ws) == TrimRight(TrimLeft(s, ws), ws)
  {
  }

  /** Trimming keeps exactly `s[a..b]` when `a` and `b - 1` are the first and
      last positions holding a character outside `ws`. */
  lemma TrimAt(s: string, ws: char -> bool, a: nat, b: nat)
    requires a < b <= |s|
    requires forall k :: 0 <= k < a ==> ws(s[k])
    requires !ws(s[a]) && !ws(s[b - 1])
    requires forall k :: b <= k < |s| ==> ws(s[k])
    ensures Trim(s, ws) == s[a..b]
  {
    TrimUnfold(s, ws);
    TrimLeftAt(s, ws, a);
    TrimRightOfSuffix(s, ws, a, b);
  }

  /** Joins streamed token texts in order (`response += t`). */
  function Concat(ts: seq<string>): string
  {
    if ts == [] then [] else Concat(ts[..|ts| - 1]) + ts[|ts| - 1]
  }
}
