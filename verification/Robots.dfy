/**
 robots.txt rules: matching a path against a pattern with * and a trailing $, and choosing between
 the rules that match (internal/fetch/fetch.go; sections 2.2.2 and 2.2.3 of RFC 9309).
 */
module Robots {
  import opened Types

  // ---- What a pattern means ----

  /** A pattern without its trailing $: each * stands for any run of characters, every other
      character for itself. Anchored, it must use up the path; otherwise a rest may follow. */
  ghost predicate Accepts(pattern: string, anchored: bool, s: string) {
    if pattern == "" then anchored ==> s == ""
    else if pattern[0] == '*' then exists k | 0 <= k <= |s| :: Accepts(pattern[1..], anchored, s[k..])
    else s != "" && s[0] == pattern[0] && Accepts(pattern[1..], anchored, s[1..])
  }

  predicate Anchored(pattern: string) { pattern != "" && pattern[|pattern| - 1] == '$' }

  function Trimmed(pattern: string): string {
    if Anchored(pattern) then pattern[..|pattern| - 1] else pattern
  }

  /** Whether a rule applies to a path. */
  ghost predicate Applies(pattern: string, path: string) {
    Accepts(Trimmed(pattern), Anchored(pattern), path)
  }

  // ---- Piece by piece ----

  /** strings.Split at the stars. */
  function Split(pattern: string): (parts: seq<string>)
    ensures |parts| > 0
  {
    if pattern == "" then [""]
    else
      var rest := Split(pattern[1..]);
      if pattern[0] == '*' then [""] + rest else [[pattern[0]] + rest[0]] + rest[1..]
  }

  /** The pieces one after another, with any gaps between them. */
  ghost predicate Fills(parts: seq<string>, anchored: bool, s: string)
    requires |parts| > 0
    decreases |parts|, 0
  {
    parts[0] <= s &&
    if |parts| == 1 then anchored ==> s == parts[0]
    else AfterGap(parts[1..], anchored, s[|parts[0]|..])
  }

  /** The pieces, after any gap. */
  ghost predicate AfterGap(parts: seq<string>, anchored: bool, s: string)
    requires |parts| > 0
    decreases |parts|, 1
  {
    exists k | 0 <= k <= |s| :: Fills(parts, anchored, s[k..])
  }

  lemma SlideFirst(h: string, c: char, rest: seq<string>, anchored: bool, s: string)
    ensures Fills([[c] + h] + rest, anchored, s) <==> s != "" && s[0] == c && Fills([h] + rest, anchored, s[1..])
  {
  }

  /** Cutting at the stars loses nothing. */
  lemma {:induction false} SplitMeansTheSame(pattern: string, anchored: bool, s: string)
    ensures Accepts(pattern, anchored, s) <==> Fills(Split(pattern), anchored, s)
    decreases |pattern|
  {
    if pattern != "" {
      var rest := Split(pattern[1..]);
      if pattern[0] == '*' {
        assert Split(pattern)[1..] == rest && s[0..] == s;
        forall k | 0 <= k <= |s| ensures Accepts(pattern[1..], anchored, s[k..]) <==> Fills(rest, anchored, s[k..]) {
          SplitMeansTheSame(pattern[1..], anchored, s[k..]);
        }
        assert Fills(Split(pattern), anchored, s) <==> AfterGap(rest, anchored, s);
      } else {
        assert rest == [rest[0]] + rest[1..];
        SlideFirst(rest[0], pattern[0], rest[1..], anchored, s);
        if s != "" { SplitMeansTheSame(pattern[1..], anchored, s[1..]); }
      }
    }
  }

  // ---- Greedy is enough ----

  /** part stands in s at position j. */
  predicate At(s: string, part: string, j: nat) { j + |part| <= |s| && s[j..j + |part|] == part }

  /** More room before the pieces does no harm. */
  lemma GapGrows(parts: seq<string>, anchored: bool, s: string, j: nat)
    requires |parts| > 0 && j <= |s| && AfterGap(parts, anchored, s[j..])
    ensures AfterGap(parts, anchored, s)
  {
  }

  lemma FillsAt(parts: seq<string>, anchored: bool, s: string, k: nat)
    requires |parts| > 0 && k <= |s|
    ensures Fills(parts, anchored, s[k..]) ==> At(s, parts[0], k)
    ensures At(s, parts[0], k) && |parts| == 1 ==>
              (Fills(parts, anchored, s[k..]) <==> (anchored ==> k + |parts[0]| == |s|))
    ensures At(s, parts[0], k) && |parts| > 1 ==>
              (Fills(parts, anchored, s[k..]) <==> AfterGap(parts[1..], anchored, s[k + |parts[0]|..]))
  {
  }

  /** Taking the leftmost place for the next piece leaves the most room for the others. */
  lemma LeftmostIsEnough(parts: seq<string>, anchored: bool, s: string, j: nat)
    requires |parts| > 1 && At(s, parts[0], j) && forall k: nat | k < j :: !At(s, parts[0], k)
    ensures AfterGap(parts, anchored, s) <==> AfterGap(parts[1..], anchored, s[j + |parts[0]|..])
  {
    if AfterGap(parts, anchored, s) {
      var k :| 0 <= k <= |s| && Fills(parts, anchored, s[k..]);
      FillsAt(parts, anchored, s, k);
      assert s[j + |parts[0]|..][k - j..] == s[k + |parts[0]|..];
      GapGrows(parts[1..], anchored, s[j + |parts[0]|..], k - j);
    }
    if AfterGap(parts[1..], anchored, s[j + |parts[0]|..]) {
      FillsAt(parts, anchored, s, j);
    }
  }

  lemma NowhereFails(parts: seq<string>, anchored: bool, s: string)
    requires |parts| > 0 && forall k: nat :: !At(s, parts[0], k)
    ensures !AfterGap(parts, anchored, s)
  {
    forall k | 0 <= k <= |s| ensures !Fills(parts, anchored, s[k..]) {
      FillsAt(parts, anchored, s, k);
    }
  }

  /** The last piece: anywhere, or at the very end. */
  lemma LastPiece(part: string, anchored: bool, s: string)
    ensures AfterGap([part], anchored, s) <==> exists k: nat :: At(s, part, k) && (anchored ==> k + |part| == |s|)
  {
    hide At, Fills;
    if k: nat :| At(s, part, k) && (anchored ==> k + |part| == |s|) {
      AtIsInside(s, part, k);
      FillsAt([part], anchored, s, k);
    }
    if AfterGap([part], anchored, s) {
      var k :| 0 <= k <= |s| && Fills([part], anchored, s[k..]);
      FillsAt([part], anchored, s, k);
    }
  }

  lemma AtIsInside(s: string, part: string, k: nat)
    requires At(s, part, k)
    ensures k <= |s|
  {
  }

  lemma EndsWith(part: string, s: string)
    ensures (exists k: nat :: At(s, part, k) && k + |part| == |s|) <==> |part| <= |s| && s[|s| - |part|..] == part
  {
    if |part| <= |s| { assert At(s, part, |s| - |part|) <==> s[|s| - |part|..] == part; }
  }

  // ---- The code ----

  /** strings.Index: the leftmost place, if there is one. */
  method Index(s: string, part: string) returns (j: Option<nat>)
    ensures j.Some? ==> At(s, part, j.value) && forall k: nat | k < j.value :: !At(s, part, k)
    ensures j.None? ==> forall k: nat :: !At(s, part, k)
  {
    var i := 0;
    while i + |part| <= |s|
      invariant forall k: nat | k < i :: !At(s, part, k)
    {
      if s[i..i + |part|] == part {
        return Some(i);
      }
      i := i + 1;
    }
    return None;
  }

  /** robotsMatch. */
  method RobotsMatch(pattern: string, path: string) returns (yes: bool)
    ensures yes <==> Applies(pattern, path)
  {
    var anchored := pattern != "" && pattern[|pattern| - 1] == '$';
    var bare := if anchored then pattern[..|pattern| - 1] else pattern;
    var parts := Split(bare);
    SplitMeansTheSame(bare, anchored, path);
    hide Accepts, At, AfterGap, Split;
    if !(parts[0] <= path) {
      return false;
    }
    var rest := path[|parts[0]|..];
    if |parts| == 1 {
      assert path == parts[0] + rest;
      return !anchored || rest == "";
    }
    for i := 1 to |parts|
      invariant i < |parts| ==> (Fills(parts, anchored, path) <==> AfterGap(parts[i..], anchored, rest))
      invariant i == |parts| ==> Fills(parts, anchored, path)
    {
      var part := parts[i];
      LastPiece(part, anchored, rest);
      if anchored && i == |parts| - 1 {
        assert parts[i..] == [part];
        EndsWith(part, rest);
        return |part| <= |rest| && rest[|rest| - |part|..] == part; // anchored: compare from the end
      }
      var j := Index(rest, part);
      if j.None? {
        NowhereFails(parts[i..], anchored, rest);
        return false;
      }
      if i < |parts| - 1 {
        LeftmostIsEnough(parts[i..], anchored, rest, j.value);
        assert parts[i..][1..] == parts[i + 1..];
      } else {
        assert parts[i..] == [part];
      }
      rest := rest[j.value + |part|..];
    }
    return true;
  }

  datatype Rules = Rules(allow: seq<string>, disallow: seq<string>)

  /** The most specific rule decides: the longest that applies, and of two equally long ones the
      one that allows. With none, everything is allowed. */
  ghost predicate Allowed(r: Rules, path: string) {
    || (forall d | d in r.disallow :: !Applies(d, path))
    || (exists a | a in r.allow && Applies(a, path) :: forall d | d in r.disallow && Applies(d, path) :: |d| <= |a|)
  }

  /** allows. */
  method Allows(r: Rules, path: string) returns (allowed: bool)
    ensures allowed <==> Allowed(r, path)
  {
    hide Applies;
    var best := -1;
    allowed := true;
    for i := 0 to |r.disallow|
      invariant best >= -1 && (allowed <==> best == -1)
      invariant forall k | 0 <= k < i && Applies(r.disallow[k], path) :: |r.disallow[k]| <= best
      invariant best >= 0 ==> exists d :: d in r.disallow && Applies(d, path) && |d| == best
    {
      var m := RobotsMatch(r.disallow[i], path);
      if m && |r.disallow[i]| > best {
        best, allowed := |r.disallow[i]|, false;
        assert r.disallow[i] in r.disallow;
      }
    }
    var longest := best;
    assert forall d | d in r.disallow && Applies(d, path) :: |d| <= longest;
    for i := 0 to |r.allow|
      invariant longest <= best
      invariant allowed <==>
                longest == -1 || exists k | 0 <= k < i :: Applies(r.allow[k], path) && |r.allow[k]| >= longest
      invariant forall k | 0 <= k < i && Applies(r.allow[k], path) :: |r.allow[k]| <= best
      invariant best > longest ==> allowed
    {
      var m := RobotsMatch(r.allow[i], path);
      if m && |r.allow[i]| >= best {
        best, allowed := |r.allow[i]|, true;
      }
    }
    if allowed && longest >= 0 {
      ghost var k :| 0 <= k < |r.allow| && Applies(r.allow[k], path) && |r.allow[k]| >= longest;
      assert r.allow[k] in r.allow;
    }
  }
}
