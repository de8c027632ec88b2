/**
 How a long thread's comments are laid out: answers first, what the summary covers folded, and
 off-topic stretches folded (internal/web/arrange.go). Nothing may be lost or shown twice.
 */
module Arrange {
  import opened Types

  type Id = nat

  /** newer: the comment whose advice replaced this one's, or 0. */
  datatype Comment = Comment(id: Id, newer: int)

  datatype Thread = Thread(comment: Comment, replies: seq<Comment>)

  datatype Kind = Rank | Superseded | Tangent | Other

  datatype Nudge = Nudge(id: Id, kind: Kind, target: Id, value: int, reversed: bool)

  datatype Block = Single(thread: Thread) | Stretch(nudge: Id, threads: seq<Thread>)

  datatype Arrangement = Arrangement(arranged: bool, answers: seq<Block>, folded: seq<Block>, rest: seq<Block>, count: nat)

  // ---- Blocks ----

  predicate Covers(n: Nudge, t: Thread) { n.target <= t.comment.id && t.comment.id <= n.value }

  function Items(b: Block): seq<Thread> {
    match b case Single(t) => [t] case Stretch(_, ts) => ts
  }

  function Flatten(blocks: seq<Block>): seq<Thread> {
    if blocks == [] then [] else Flatten(blocks[..|blocks| - 1]) + Items(blocks[|blocks| - 1])
  }

  /** Where the first tangent is that a thread falls in; their number if there is none. */
  function FirstTangent(t: Thread, tangents: seq<Nudge>): (k: nat)
    ensures k <= |tangents| && (k < |tangents| ==> Covers(tangents[k], t)) &&
            forall j | 0 <= j < k :: !Covers(tangents[j], t)
  {
    if tangents == [] || Covers(tangents[0], t) then 0 else 1 + FirstTangent(t, tangents[1..])
  }

  /** A stretch is two or more threads, all inside the first tangent its first thread falls in. */
  ghost predicate Justified(b: Block, tangents: seq<Nudge>) {
    b.Stretch? ==> |b.threads| >= 2 && var k := FirstTangent(b.threads[0], tangents);
      k < |tangents| && b.nudge == tangents[k].id && forall t <- b.threads :: Covers(tangents[k], t)
  }

  /** What comes after a block does not belong to its tangent. */
  ghost predicate Complete(b: Block, next: Thread, tangents: seq<Nudge>) {
    Items(b) != [] && var k := FirstTangent(Items(b)[0], tangents); k < |tangents| ==> !Covers(tangents[k], next)
  }

  /** Blocks as they should be: stretches are justified, and none could take in the thread behind it;
      nor could a single thread begin one. */
  ghost predicate Blocked(blocks: seq<Block>, tangents: seq<Nudge>) {
    && (forall b <- blocks :: Justified(b, tangents))
    && (forall i | 0 < i < |blocks| :: Items(blocks[i]) != [] && Complete(blocks[i - 1], Items(blocks[i])[0], tangents))
  }

  lemma FlattenSnoc(blocks: seq<Block>, b: Block)
    ensures Flatten(blocks + [b]) == Flatten(blocks) + Items(b)
  {
  }

  lemma {:induction false} FlattenCons(b: Block, rest: seq<Block>)
    ensures Flatten([b] + rest) == Items(b) + Flatten(rest)
    decreases |rest|
  {
    hide Items;
    if rest == [] {
      assert [b][..0] == [] && [b] + rest == [b];
    } else {
      var init, l := rest[..|rest| - 1], rest[|rest| - 1];
      FlattenCons(b, init);
      assert ([b] + init) + [l] == [b] + rest;
      FlattenSnoc([b] + init, l);
    }
  }

  lemma BlockedTail(b: Block, rest: seq<Block>, tangents: seq<Nudge>)
    requires Blocked([b] + rest, tangents)
    ensures Blocked(rest, tangents) && Justified(b, tangents) && Items(b) != []
    ensures rest != [] ==> Items(rest[0]) != [] && Complete(b, Items(rest[0])[0], tangents)
  {
    var all := [b] + rest;
    assert all[0] == b && b in all;
    forall x | x in rest ensures Justified(x, tangents) { assert x in all; }
    forall i | 0 < i < |rest| ensures Items(rest[i]) != [] && Complete(rest[i - 1], Items(rest[i])[0], tangents) {
      assert all[i + 1] == rest[i] && all[i + 1 - 1] == rest[i - 1];
    }
    if rest != [] { assert all[1] == rest[0] && Complete(all[1 - 1], Items(all[1])[0], tangents); }
  }

  lemma NotShorter(x: Block, a: seq<Block>, y: Block, tangents: seq<Nudge>, threads: seq<Thread>)
    requires Items(x) != [] && Items(y) != [] && Justified(y, tangents)
    requires a != [] ==> Items(a[0]) != [] && Complete(x, Items(a[0])[0], tangents)
    requires threads == Items(x) + Flatten(a) && Items(y) <= threads && (a == [] ==> Flatten(a) == [])
    requires a != [] ==> Flatten(a) != [] && Flatten(a)[0] == Items(a[0])[0]
    ensures |Items(y)| <= |Items(x)|
  {
    hide Justified, Complete, Flatten;
    if |Items(y)| > |Items(x)| {
      InsideIsCovered(y, |Items(x)|, tangents);
      BehindIsNot(x, Items(a[0])[0], tangents);
    }
  }

  lemma InsideIsCovered(b: Block, j: nat, tangents: seq<Nudge>)
    requires Justified(b, tangents) && 0 < j < |Items(b)|
    ensures var k := FirstTangent(Items(b)[0], tangents); k < |tangents| && Covers(tangents[k], Items(b)[j])
  {
  }

  lemma BehindIsNot(b: Block, next: Thread, tangents: seq<Nudge>)
    requires Complete(b, next, tangents) && Items(b) != []
    ensures var k := FirstTangent(Items(b)[0], tangents); k < |tangents| ==> !Covers(tangents[k], next)
  {
  }

  lemma FlattenStarts(blocks: seq<Block>)
    requires blocks != [] && Items(blocks[0]) != []
    ensures Flatten(blocks) != [] && Flatten(blocks)[0] == Items(blocks[0])[0]
  {
  }

  /** Main result. There is one way to block the threads: the order in which the tangents are listed
      and the threads come decides everything. */
  lemma {:induction false} BlocksAreUnique(a: seq<Block>, b: seq<Block>, tangents: seq<Nudge>)
    requires Blocked(a, tangents) && Blocked(b, tangents) && Flatten(a) == Flatten(b)
    ensures a == b
    decreases |a|
  {
    hide Blocked, Justified, Complete, Flatten;
    if a == [] || b == [] {
      NoThreadsNoBlocks(a, b, tangents);
    } else {
      var x, y := a[0], b[0];
      assert [x] + a[1..] == a && [y] + b[1..] == b;
      BlockedTail(x, a[1..], tangents);
      BlockedTail(y, b[1..], tangents);
      FlattenCons(x, a[1..]);
      FlattenCons(y, b[1..]);
      FlattenNone();
      if a[1..] != [] { FlattenStarts(a[1..]); }
      if b[1..] != [] { FlattenStarts(b[1..]); }
      var threads := Flatten(a);
      assert Items(y) <= threads && Items(x) <= threads;
      NotShorter(x, a[1..], y, tangents, threads);
      NotShorter(y, b[1..], x, tangents, threads);
      assert Items(x) == threads[..|Items(x)|] == Items(y);
      SameBlock(x, y, tangents);
      assert Flatten(a[1..]) == threads[|Items(x)|..] == Flatten(b[1..]);
      BlocksAreUnique(a[1..], b[1..], tangents);
    }
  }

  lemma SameBlock(x: Block, y: Block, tangents: seq<Nudge>)
    requires Items(x) == Items(y) && Justified(x, tangents) && Justified(y, tangents)
    ensures x == y
  {
  }

  lemma NoThreadsNoBlocks(a: seq<Block>, b: seq<Block>, tangents: seq<Nudge>)
    requires Blocked(a, tangents) && Blocked(b, tangents) && Flatten(a) == Flatten(b) && (a == [] || b == [])
    ensures a == b
  {
    hide Complete, Justified, Flatten;
    FlattenNone();
    if a != [] { SomethingFlattens(a, tangents); }
    if b != [] { SomethingFlattens(b, tangents); }
  }

  lemma SomethingFlattens(blocks: seq<Block>, tangents: seq<Nudge>)
    requires Blocked(blocks, tangents) && blocks != []
    ensures Flatten(blocks) != []
  {
    hide Complete, Flatten;
    assert [blocks[0]] + blocks[1..] == blocks;
    BlockedTail(blocks[0], blocks[1..], tangents);
    FlattenStarts(blocks);
  }

  /** How far the tangent's stretch runs from here. */
  method StretchEnd(threads: seq<Thread>, n: Nudge, start: nat) returns (i: nat)
    requires start < |threads| && Covers(n, threads[start])
    ensures start < i <= |threads| && forall t <- threads[start..i] :: Covers(n, t)
    ensures i < |threads| ==> !Covers(n, threads[i])
  {
    i := start;
    while i < |threads| && Covers(n, threads[i])
      invariant start <= i <= |threads|
      invariant forall k | start <= k < i :: Covers(n, threads[k])
    {
      i := i + 1;
    }
  }

  /** The first tangent a thread falls in. */
  method TangentOf(t: Thread, tangents: seq<Nudge>) returns (k: nat)
    ensures k == FirstTangent(t, tangents)
  {
    k := 0;
    while k < |tangents| && !Covers(tangents[k], t)
      invariant k <= |tangents| && forall j | 0 <= j < k :: !Covers(tangents[j], t)
    {
      k := k + 1;
    }
  }

  /** The next block: a thread on its own, or a stretch. */
  method NextBlock(threads: seq<Thread>, tangents: seq<Nudge>, start: nat) returns (b: Block, i: nat)
    requires start < |threads|
    ensures start < i <= |threads| && Items(b) == threads[start..i] && Justified(b, tangents)
    ensures i < |threads| ==> Complete(b, threads[i], tangents)
  {
    var k := TangentOf(threads[start], tangents);
    if k == |tangents| {
      return Single(threads[start]), start + 1;
    }
    i := StretchEnd(threads, tangents[k], start);
    if i - start == 1 {
      return Single(threads[start]), i; // a stretch is at least two
    }
    b := Stretch(tangents[k].id, threads[start..i]);
  }

  /** blocks: whatever the tangents, the blocks hold exactly the threads, in order; and each stretch
      of two or more threads in a tangent is one block. */
  method Blocks(threads: seq<Thread>, tangents: seq<Nudge>) returns (out: seq<Block>)
    ensures Flatten(out) == threads && Blocked(out, tangents)
  {
    hide Justified, Flatten, Complete;
    out := [];
    var i := 0;
    FlattenNone();
    while i < |threads|
      invariant 0 <= i <= |threads| && Flatten(out) == threads[..i] && Blocked(out, tangents)
      invariant out != [] && i < |threads| ==> Complete(out[|out| - 1], threads[i], tangents)
      decreases |threads| - i
    {
      var b, next := NextBlock(threads, tangents, i);
      FlattenSnoc(out, b);
      BlockedSnoc(out, b, tangents);
      assert threads[..next] == threads[..i] + threads[i..next];
      out := out + [b];
      i := next;
    }
    assert threads[..|threads|] == threads;
  }

  lemma BlockedSnoc(out: seq<Block>, b: Block, tangents: seq<Nudge>)
    requires Blocked(out, tangents) && Justified(b, tangents) && Items(b) != []
    requires out != [] ==> Complete(out[|out| - 1], Items(b)[0], tangents)
    ensures Blocked(out + [b], tangents)
  {
  }

  lemma FlattenNone()
    ensures Flatten([]) == []
  {
  }

  // ---- Ranks ----

  function Applied(nudges: seq<Nudge>, kind: Kind): map<Id, int> {
    if nudges == [] then map[] else
      var n, before := nudges[|nudges| - 1], Applied(nudges[..|nudges| - 1], kind);
      if n.reversed || n.kind != kind then before else before[n.target := if kind == Rank then n.value + 1 else n.value]
  }

  function Tangents(nudges: seq<Nudge>): seq<Nudge> {
    if nudges == [] then [] else
      var n, before := nudges[|nudges| - 1], Tangents(nudges[..|nudges| - 1]);
      if n.reversed || n.kind != Tangent then before else before + [n]
  }

  function Get(m: map<Id, int>, id: Id): int { if id in m then m[id] else 0 }

  function Better(b: int, r: int): int { if r != 0 && (b == 0 || r < b) then r else b }

  function BestOf(rank: map<Id, int>, comments: seq<Comment>): int {
    if comments == [] then 0
    else Better(BestOf(rank, comments[..|comments| - 1]), Get(rank, comments[|comments| - 1].id))
  }

  /** The best rank of a thread's comments, 0 if none carries the answer. */
  function Best(rank: map<Id, int>, t: Thread): int { BestOf(rank, [t.comment] + t.replies) }

  /** The best rank is the smallest there is. */
  lemma {:induction false} BestIsLeast(rank: map<Id, int>, comments: seq<Comment>)
    ensures BestOf(rank, comments) == 0 <==> forall c <- comments :: Get(rank, c.id) == 0
    ensures BestOf(rank, comments) != 0 ==> exists c <- comments :: Get(rank, c.id) == BestOf(rank, comments)
    ensures forall c <- comments :: Get(rank, c.id) != 0 ==> BestOf(rank, comments) <= Get(rank, c.id)
  {
    if comments != [] {
      var init, c := comments[..|comments| - 1], comments[|comments| - 1];
      BestIsLeast(rank, init);
      assert comments == init + [c];
      if BestOf(rank, comments) != 0 {
        if Better(BestOf(rank, init), Get(rank, c.id)) == Get(rank, c.id) {
          assert c in comments;
        } else {
          var d :| d in init && Get(rank, d.id) == BestOf(rank, init);
          assert d in comments;
        }
      }
    }
  }

  // ---- Sorting the answers ----

  /** x placed behind everything that does not rank after it. */
  function Insert(rank: map<Id, int>, s: seq<Thread>, x: Thread): seq<Thread> {
    if s == [] || Best(rank, s[|s| - 1]) <= Best(rank, x) then s + [x]
    else Insert(rank, s[..|s| - 1], x) + [s[|s| - 1]]
  }

  function Ranked(rank: map<Id, int>, s: seq<Thread>): seq<Thread> {
    if s == [] then [] else Insert(rank, Ranked(rank, s[..|s| - 1]), s[|s| - 1])
  }

  ghost predicate InOrder(rank: map<Id, int>, s: seq<Thread>) {
    forall i, j | 0 <= i < j < |s| :: Best(rank, s[i]) <= Best(rank, s[j])
  }

  /** The threads of one rank, in order. */
  function OfRank(rank: map<Id, int>, s: seq<Thread>, r: int): seq<Thread> {
    if s == [] then [] else
      OfRank(rank, s[..|s| - 1], r) + if Best(rank, s[|s| - 1]) == r then [s[|s| - 1]] else []
  }

  lemma {:induction false} InsertKeepsItems(rank: map<Id, int>, s: seq<Thread>, x: Thread)
    ensures multiset(Insert(rank, s, x)) == multiset(s) + multiset{x}
    ensures forall t :: t in Insert(rank, s, x) <==> t in s || t == x
  {
    hide Best;
    if s != [] && Best(rank, s[|s| - 1]) > Best(rank, x) {
      InsertKeepsItems(rank, s[..|s| - 1], x);
      assert s == s[..|s| - 1] + [s[|s| - 1]];
    }
  }

  lemma {:induction false} InsertKeepsOrder(rank: map<Id, int>, s: seq<Thread>, x: Thread)
    requires InOrder(rank, s)
    ensures InOrder(rank, Insert(rank, s, x))
  {
    hide Best;
    if s != [] && Best(rank, s[|s| - 1]) > Best(rank, x) {
      var put := Insert(rank, s[..|s| - 1], x);
      InsertKeepsOrder(rank, s[..|s| - 1], x);
      InsertKeepsItems(rank, s[..|s| - 1], x);
      forall i | 0 <= i < |put| ensures Best(rank, put[i]) <= Best(rank, s[|s| - 1]) {
        assert put[i] in put;
      }
    }
  }

  lemma {:induction false} InsertKeepsRank(rank: map<Id, int>, s: seq<Thread>, x: Thread, r: int)
    ensures OfRank(rank, Insert(rank, s, x), r) == OfRank(rank, s, r) + if Best(rank, x) == r then [x] else []
  {
    hide Best;
    if s == [] || Best(rank, s[|s| - 1]) <= Best(rank, x) {
      assert (s + [x])[..|s|] == s;
    } else {
      var init, l := s[..|s| - 1], s[|s| - 1];
      InsertKeepsRank(rank, init, x, r);
      var put := Insert(rank, init, x);
      assert (put + [l])[..|put|] == put;
    }
  }

  /** Main result. The answers are a stable sort by best rank: the same threads, in rank order, and
      threads of the same rank in the order they came. */
  lemma {:induction false} RankedIsStable(rank: map<Id, int>, s: seq<Thread>, r: int)
    ensures InOrder(rank, Ranked(rank, s)) && multiset(Ranked(rank, s)) == multiset(s)
    ensures OfRank(rank, Ranked(rank, s), r) == OfRank(rank, s, r)
  {
    hide Best, Insert;
    if s != [] {
      RankedIsStable(rank, s[..|s| - 1], r);
      InsertKeepsItems(rank, Ranked(rank, s[..|s| - 1]), s[|s| - 1]);
      InsertKeepsOrder(rank, Ranked(rank, s[..|s| - 1]), s[|s| - 1]);
      InsertKeepsRank(rank, Ranked(rank, s[..|s| - 1]), s[|s| - 1], r);
      assert s == s[..|s| - 1] + [s[|s| - 1]];
    }
  }

  /** Where insertion stops is where Insert puts it. */
  lemma {:induction false} InsertAt(rank: map<Id, int>, s: seq<Thread>, x: Thread, j: nat)
    requires j <= |s| && (j > 0 ==> Best(rank, s[j - 1]) <= Best(rank, x))
    requires forall k | j <= k < |s| :: Best(rank, s[k]) > Best(rank, x)
    ensures Insert(rank, s, x) == s[..j] + [x] + s[j..]
  {
    hide Best;
    if j < |s| {
      var init, l := s[..|s| - 1], s[|s| - 1];
      InsertAt(rank, init, x, j);
      assert init[..j] == s[..j] && s[j..] == init[j..] + [l];
    } else {
      assert s[..j] == s && s[j..] == [];
    }
  }

  lemma RankedOne(rank: map<Id, int>, s: seq<Thread>)
    requires |s| > 0
    ensures Ranked(rank, s[..1]) == s[..1]
  {
  }

  /** The insertion sort, in place. */
  method SortAnswers(rank: map<Id, int>, a: array<Thread>)
    modifies a
    ensures a[..] == Ranked(rank, old(a[..]))
  {
    hide Best, Insert;
    ghost var was := a[..];
    if a.Length > 0 { RankedOne(rank, was); }
    var i := 1;
    while i < a.Length
      invariant a.Length == 0 || 1 <= i <= a.Length
      invariant a.Length > 0 ==> a[..i] == Ranked(rank, was[..i]) && a[i..] == was[i..]
    {
      assert a[i] == a[i..][0] && a[i + 1..] == a[i..][1..];
      SinkOne(rank, a, i);
      assert was[..i + 1] == was[..i] + [was[i]] && was[..i + 1][..i] == was[..i];
      assert was[i..][0] == was[i] && was[i + 1..] == was[i..][1..];
      assert a[i + 1..] == was[i + 1..];
      i := i + 1;
    }
    assert a[..a.Length] == a[..] && was[..a.Length] == was;
  }

  lemma MadeRoom(r: seq<Thread>, s: seq<Thread>, x: Thread, j: nat)
    requires |r| == |s| + 1 && j <= |s| && r[j] == x
    requires (forall k | 0 <= k < j :: r[k] == s[k]) && forall k | j <= k < |s| :: r[k + 1] == s[k]
    ensures r == s[..j] + [x] + s[j..]
  {
  }

  /** Item i has sunk to place j: those it passed rank behind it and moved up, the rest is where it was. */
  ghost predicate Sunk(rank: map<Id, int>, was: seq<Thread>, now: seq<Thread>, i: nat, j: nat) {
    && j <= i < |was| == |now| && now[j] == was[i]
    && (forall k | 0 <= k < j :: now[k] == was[k])
    && (forall k | j <= k < i :: now[k + 1] == was[k] && Best(rank, was[k]) > Best(rank, was[i]))
    && (forall k | i < k < |was| :: now[k] == was[k])
  }

  lemma SinksOn(rank: map<Id, int>, was: seq<Thread>, now: seq<Thread>, i: nat, j: nat)
    requires Sunk(rank, was, now, i, j) && j > 0 && Best(rank, now[j]) < Best(rank, now[j - 1])
    ensures Sunk(rank, was, now[j := now[j - 1]][j - 1 := now[j]], i, j - 1)
  {
    hide Best;
  }

  lemma SunkIsInserted(rank: map<Id, int>, was: seq<Thread>, now: seq<Thread>, i: nat, j: nat)
    requires Sunk(rank, was, now, i, j) && (j > 0 ==> Best(rank, now[j - 1]) <= Best(rank, now[j]))
    ensures now[..i + 1] == Insert(rank, was[..i], was[i]) && now[i + 1..] == was[i + 1..]
  {
    hide Best, Insert;
    InsertAt(rank, was[..i], was[i], j);
    MadeRoom(now[..i + 1], was[..i], was[i], j);
  }

  /** Item i sinks to its place among those before it. */
  method SinkOne(rank: map<Id, int>, a: array<Thread>, i: nat)
    requires 0 < i < a.Length
    modifies a
    ensures a[..i + 1] == Insert(rank, old(a[..i]), old(a[i]))
    ensures a[i + 1..] == old(a[i + 1..])
  {
    hide Best, Insert;
    ghost var was := a[..];
    var j := i;
    while j > 0 && Best(rank, a[j]) < Best(rank, a[j - 1])
      invariant 0 <= j <= i && Sunk(rank, was, a[..], i, j)
    {
      SinksOn(rank, was, a[..], i, j);
      hide Sunk;
      ghost var before := a[..];
      a[j], a[j - 1] := a[j - 1], a[j];
      assert a[..] == before[j := before[j - 1]][j - 1 := before[j]];
      j := j - 1;
    }
    SunkIsInserted(rank, was, a[..], i, j);
    hide Sunk;
    assert a[..i + 1] == a[..][..i + 1] && a[i + 1..] == a[..][i + 1..];
    assert was[..i] == old(a[..i]) && was[i + 1..] == old(a[i + 1..]);
  }

  // ---- The whole layout ----

  function Mark(newer: map<Id, int>, t: Thread): Thread {
    Thread(t.comment.(newer := Get(newer, t.comment.id)), MarkAll(newer, t.replies))
  }

  function MarkAll(newer: map<Id, int>, comments: seq<Comment>): seq<Comment> {
    seq(|comments|, i requires 0 <= i < |comments| => comments[i].(newer := Get(newer, comments[i].id)))
  }

  function Marked(newer: map<Id, int>, threads: seq<Thread>): seq<Thread> {
    seq(|threads|, i requires 0 <= i < |threads| => Mark(newer, threads[i]))
  }

  // ---- What nudges say ----

  /** A nudge counts unless it was reversed; one behind another overrides it, kind by kind. */
  lemma {:induction false} LaterNudgesOverride(a: seq<Nudge>, b: seq<Nudge>, kind: Kind)
    ensures Applied(a + b, kind) == Applied(a, kind) + Applied(b, kind) && Tangents(a + b) == Tangents(a) + Tangents(b)
  {
    if b == [] {
      assert a + b == a;
    } else {
      assert (a + b)[..|a + b| - 1] == a + b[..|b| - 1];
      LaterNudgesOverride(a, b[..|b| - 1], kind);
    }
  }

  /** A rank is kept one up, so that 0 is no rank; a tangent runs from its target to its value, both included. */
  lemma OneNudge(n: Nudge, kind: Kind, t: Thread)
    ensures Applied([n], kind) == if !n.reversed && n.kind == kind
                                  then map[n.target := n.value + if kind.Rank? then 1 else 0] else map[]
    ensures Tangents([n]) == if !n.reversed && n.kind.Tangent? then [n] else []
    ensures !Covers(n, t) <==> t.comment.id < n.target || n.value < t.comment.id
  {
  }

  datatype Place = Answer | Fold | Remain

  /** A thread is an answer if it or any reply has a rank; otherwise it is folded if there is a summary that
      covers it; otherwise it comes after. */
  lemma PlaceIs(rank: map<Id, int>, summary: bool, covers: set<Id>, t: Thread)
    ensures var ranked := exists c :: (c == t.comment || c in t.replies) && Get(rank, c.id) != 0;
            && (PlaceOf(rank, summary, covers, t) == Answer <==> ranked)
            && (PlaceOf(rank, summary, covers, t) == Fold <==> !ranked && summary && t.comment.id in covers)
  {
    BestIsLeast(rank, [t.comment] + t.replies);
  }

  /** What is counted of folded threads is their comments and all replies. */
  lemma {:induction false} CountsAll(a: seq<Thread>, b: seq<Thread>, t: Thread)
    ensures CommentsIn(a + b) == CommentsIn(a) + CommentsIn(b) && CommentsIn([t]) == |[t.comment] + t.replies|
  {
    if b == [] {
      assert a + b == a;
    } else {
      assert (a + b)[..|a + b| - 1] == a + b[..|b| - 1];
      CountsAll(a, b[..|b| - 1], t);
    }
  }

  function PlaceOf(rank: map<Id, int>, summary: bool, covers: set<Id>, t: Thread): Place {
    if Best(rank, t) != 0 then Answer else if summary && t.comment.id in covers then Fold else Remain
  }

  /** The threads that go to one place, in the order of the thread. */
  function Placed(rank: map<Id, int>, summary: bool, covers: set<Id>, threads: seq<Thread>, p: Place): seq<Thread> {
    if threads == [] then [] else
      Placed(rank, summary, covers, threads[..|threads| - 1], p) +
      if PlaceOf(rank, summary, covers, threads[|threads| - 1]) == p then [threads[|threads| - 1]] else []
  }

  lemma OneMore(s: seq<Thread>, a: seq<Thread>, b: seq<Thread>, c: seq<Thread>, t: Thread, p: Place,
                a': seq<Thread>, b': seq<Thread>, c': seq<Thread>)
    requires multiset(s) == multiset(a) + multiset(b) + multiset(c)
    requires a' == (if p == Answer then a + [t] else a) && b' == (if p == Fold then b + [t] else b)
    requires c' == if p == Remain then c + [t] else c
    ensures multiset(s + [t]) == multiset(a') + multiset(b') + multiset(c')
  {
  }

  lemma PlacedSnoc(rank: map<Id, int>, summary: bool, covers: set<Id>, threads: seq<Thread>, t: Thread, p: Place)
    ensures Placed(rank, summary, covers, threads + [t], p) ==
            if PlaceOf(rank, summary, covers, t) == p then Placed(rank, summary, covers, threads, p) + [t]
            else Placed(rank, summary, covers, threads, p)
  {
  }

  ghost predicate PlacedOnce(rank: map<Id, int>, summary: bool, covers: set<Id>, threads: seq<Thread>) {
    multiset(threads) == multiset(Placed(rank, summary, covers, threads, Answer)) +
                         multiset(Placed(rank, summary, covers, threads, Fold)) +
                         multiset(Placed(rank, summary, covers, threads, Remain))
  }

  lemma OneMorePlaced(rank: map<Id, int>, summary: bool, covers: set<Id>, init: seq<Thread>, t: Thread)
    requires PlacedOnce(rank, summary, covers, init)
    ensures PlacedOnce(rank, summary, covers, init + [t])
  {
    hide PlaceOf, Placed;
    PlacedSnoc(rank, summary, covers, init, t, Answer);
    PlacedSnoc(rank, summary, covers, init, t, Fold);
    PlacedSnoc(rank, summary, covers, init, t, Remain);
    OneMore(init, Placed(rank, summary, covers, init, Answer), Placed(rank, summary, covers, init, Fold),
            Placed(rank, summary, covers, init, Remain), t, PlaceOf(rank, summary, covers, t),
            Placed(rank, summary, covers, init + [t], Answer), Placed(rank, summary, covers, init + [t], Fold),
            Placed(rank, summary, covers, init + [t], Remain));
  }

  lemma {:induction false} EachIsPlacedOnce(rank: map<Id, int>, summary: bool, covers: set<Id>, threads: seq<Thread>)
    ensures PlacedOnce(rank, summary, covers, threads)
  {
    if threads != [] {
      hide PlacedOnce;
      EachIsPlacedOnce(rank, summary, covers, threads[..|threads| - 1]);
      OneMorePlaced(rank, summary, covers, threads[..|threads| - 1], threads[|threads| - 1]);
      assert threads == threads[..|threads| - 1] + [threads[|threads| - 1]];
    }
  }

  function CommentsIn(threads: seq<Thread>): nat {
    if threads == [] then 0 else CommentsIn(threads[..|threads| - 1]) + 1 + |threads[|threads| - 1].replies|
  }

  /** The layout of threads that are marked already. */
  ghost predicate LaidOut(threads: seq<Thread>, summary: bool, covers: set<Id>, nudges: seq<Nudge>, a: Arrangement) {
    var rank := Applied(nudges, Rank);
    && a.arranged
    && Flatten(a.answers) == Ranked(rank, Placed(rank, summary, covers, threads, Answer))
    && Flatten(a.folded) == Placed(rank, summary, covers, threads, Fold)
    && Flatten(a.rest) == Placed(rank, summary, covers, threads, Remain)
    && Blocked(a.answers, []) && Blocked(a.folded, Tangents(nudges)) && Blocked(a.rest, Tangents(nudges))
    && a.count == CommentsIn(Flatten(a.folded))
  }

  /** Main result. Nothing is lost and nothing shown twice: answers, folded threads and the rest are
      together the threads of the post. */
  lemma LayoutConserves(threads: seq<Thread>, summary: bool, covers: set<Id>, nudges: seq<Nudge>, a: Arrangement)
    requires LaidOut(threads, summary, covers, nudges, a)
    ensures multiset(Flatten(a.answers) + Flatten(a.folded) + Flatten(a.rest)) == multiset(threads)
  {
    var rank := Applied(nudges, Rank);
    RankedIsStable(rank, Placed(rank, summary, covers, threads, Answer), 0);
    EachIsPlacedOnce(rank, summary, covers, threads);
  }

  method ReadNudges(nudges: seq<Nudge>) returns (rank: map<Id, int>, newer: map<Id, int>, tangents: seq<Nudge>)
    ensures rank == Applied(nudges, Rank) && newer == Applied(nudges, Superseded) && tangents == Tangents(nudges)
  {
    rank, newer, tangents := map[], map[], [];
    for i := 0 to |nudges|
      invariant rank == Applied(nudges[..i], Rank) && newer == Applied(nudges[..i], Superseded) &&
                tangents == Tangents(nudges[..i])
    {
      assert nudges[..i + 1][..i] == nudges[..i];
      var n := nudges[i];
      if n.reversed {
        continue;
      }
      match n.kind
      case Rank => rank := rank[n.target := n.value + 1];
      case Superseded => newer := newer[n.target := n.value];
      case Tangent => tangents := tangents + [n];
      case Other =>
    }
    assert nudges[..|nudges|] == nudges;
  }

  /** The superseded marks, in place. */
  method MarkThreads(threads: array<Thread>, newer: map<Id, int>)
    modifies threads
    ensures threads[..] == Marked(newer, old(threads[..]))
  {
    for i := 0 to threads.Length
      invariant forall k | 0 <= k < i :: threads[k] == Mark(newer, old(threads[k]))
      invariant forall k | i <= k < threads.Length :: threads[k] == old(threads[k])
    {
      threads[i] := Thread(threads[i].comment.(newer := Get(newer, threads[i].comment.id)),
                           MarkAll(newer, threads[i].replies));
    }
  }

  method Sort(rank: map<Id, int>, s: seq<Thread>) returns (r: seq<Thread>)
    ensures r == Ranked(rank, s)
  {
    var a := new Thread[|s|](i requires 0 <= i < |s| => s[i]);
    assert a[..] == s;
    SortAnswers(rank, a);
    r := a[..];
  }

  method Split(rank: map<Id, int>, summary: bool, covers: set<Id>, threads: seq<Thread>)
    returns (answers: seq<Thread>, folded: seq<Thread>, rest: seq<Thread>, count: nat)
    ensures answers == Placed(rank, summary, covers, threads, Answer)
    ensures folded == Placed(rank, summary, covers, threads, Fold) && count == CommentsIn(folded)
    ensures rest == Placed(rank, summary, covers, threads, Remain)
  {
    hide Best;
    answers, folded, rest, count := [], [], [], 0;
    for i := 0 to |threads|
      invariant answers == Placed(rank, summary, covers, threads[..i], Answer)
      invariant folded == Placed(rank, summary, covers, threads[..i], Fold) && count == CommentsIn(folded)
      invariant rest == Placed(rank, summary, covers, threads[..i], Remain)
    {
      assert threads[..i + 1][..i] == threads[..i];
      var t := threads[i];
      if Best(rank, t) != 0 {
        answers := answers + [t];
      } else if summary && t.comment.id in covers {
        assert (folded + [t])[..|folded|] == folded;
        folded := folded + [t];
        count := count + 1 + |t.replies|;
      } else {
        rest := rest + [t];
      }
    }
    assert threads[..|threads|] == threads;
  }

  /** arrange. */
  method Layout(threads: array<Thread>, summary: bool, covers: set<Id>, nudges: seq<Nudge>,
                plain: bool) returns (a: Arrangement)
    modifies threads
    ensures a.arranged <==> !(plain || (!summary && nudges == []))
    ensures !a.arranged ==> threads[..] == old(threads[..]) && a.answers == a.folded == [] && Flatten(a.rest) == threads[..]
    ensures !a.arranged ==> Blocked(a.rest, [])
    ensures a.arranged ==> threads[..] == Marked(Applied(nudges, Superseded), old(threads[..]))
    ensures a.arranged ==> LaidOut(threads[..], summary, covers, nudges, a)
  {
    if plain || (!summary && nudges == []) {
      var rest := Blocks(threads[..], []);
      return Arrangement(false, [], [], rest, 0);
    }
    var rank, newer, tangents := ReadNudges(nudges);
    MarkThreads(threads, newer);
    var answers, folded, rest, count := Split(rank, summary, covers, threads[..]);
    answers := Sort(rank, answers);
    var answerBlocks := Blocks(answers, []);
    var foldedBlocks := Blocks(folded, tangents);
    var restBlocks := Blocks(rest, tangents);
    a := Arrangement(true, answerBlocks, foldedBlocks, restBlocks, count);
  }
}
