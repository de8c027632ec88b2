/**
 Which groups of linked threads are worth a FAQ entry: union-find with path halving over the
 group's links, then a filter (internal/cmd/faq.go). Rows and maps come in any order, and every
 node must find the same clusters.
 */
module Clusters {
  import opened Types

  type Id = nat

  type Links = set<(Id, Id)>

  const FAQ_MIN_COMMENTS := 5

  /** What is known of a visible thread that stands on its own. */
  datatype Info = Info(comments: nat, digested: bool, inEntry: bool)

  // ---- Connected threads ----

  predicate Joined(ids: set<Id>, links: Links, a: Id, b: Id) {
    a in ids && b in ids && ((a, b) in links || (b, a) in links)
  }

  ghost predicate IsPath(ids: set<Id>, links: Links, p: seq<Id>) {
    |p| > 0 && p[0] in ids && forall i | 0 < i < |p| :: Joined(ids, links, p[i - 1], p[i])
  }

  /** There is a chain of links from a to b through threads that are shown. */
  ghost predicate Connected(ids: set<Id>, links: Links, a: Id, b: Id) {
    exists p :: IsPath(ids, links, p) && p[0] == a && p[|p| - 1] == b
  }

  lemma ConnectedSelf(ids: set<Id>, links: Links, a: Id)
    requires a in ids
    ensures Connected(ids, links, a, a)
  {
    assert IsPath(ids, links, [a]);
  }

  lemma ConnectedStep(ids: set<Id>, links: Links, a: Id, b: Id)
    requires Joined(ids, links, a, b)
    ensures Connected(ids, links, a, b)
  {
    assert IsPath(ids, links, [a, b]);
  }

  lemma ConnectedBack(ids: set<Id>, links: Links, a: Id, b: Id)
    requires Connected(ids, links, a, b)
    ensures Connected(ids, links, b, a)
  {
    var p :| IsPath(ids, links, p) && p[0] == a && p[|p| - 1] == b;
    var q := seq(|p|, i requires 0 <= i < |p| => p[|p| - 1 - i]);
    if |p| > 1 { assert Joined(ids, links, p[|p| - 2], p[|p| - 1]); }
    forall i | 0 < i < |q| ensures Joined(ids, links, q[i - 1], q[i]) {
      assert Joined(ids, links, p[|p| - 1 - i], p[|p| - i]);
    }
    assert IsPath(ids, links, q);
  }

  lemma ConnectedThrough(ids: set<Id>, links: Links, a: Id, b: Id, c: Id)
    requires Connected(ids, links, a, b) && Connected(ids, links, b, c)
    ensures Connected(ids, links, a, c)
  {
    var p :| IsPath(ids, links, p) && p[0] == a && p[|p| - 1] == b;
    var q :| IsPath(ids, links, q) && q[0] == b && q[|q| - 1] == c;
    var r := p + q[1..];
    forall i | 0 < i < |r| ensures Joined(ids, links, r[i - 1], r[i]) {
      if i < |p| {
        assert Joined(ids, links, p[i - 1], p[i]);
      } else {
        assert Joined(ids, links, q[i - |p|], q[i - |p| + 1]);
      }
    }
    assert IsPath(ids, links, r);
  }

  lemma ConnectedGrows(ids: set<Id>, links: Links, links': Links, a: Id, b: Id)
    requires Connected(ids, links, a, b) && links <= links'
    ensures Connected(ids, links', a, b)
  {
  }

  // ---- Union-find ----

  predicate StepsDown(parent: map<Id, Id>, x: Id)
    requires x in parent
  {
    parent[x] in parent && parent[x] <= x
  }

  /** Parents never exceed their children. */
  ghost predicate Down(parent: map<Id, Id>) {
    forall x {:trigger StepsDown(parent, x)} | x in parent :: StepsDown(parent, x)
  }

  ghost function Root(parent: map<Id, Id>, x: Id): (r: Id)
    requires Down(parent) && x in parent
    ensures r in parent && r <= x && parent[r] == r
  {
    assert StepsDown(parent, x);
    if parent[x] == x then x else Root(parent, parent[x])
  }

  ghost function Halved(parent: map<Id, Id>, x: Id): map<Id, Id>
    requires Down(parent) && x in parent
  {
    assert StepsDown(parent, x);
    parent[x := parent[parent[x]]]
  }

  /** Path halving: pointing x at its grandparent changes nobody's root. */
  lemma {:induction false} HalvingKeepsRoots(parent: map<Id, Id>, x: Id, y: Id)
    requires Down(parent) && x in parent && y in parent
    ensures Down(Halved(parent, x)) && Root(Halved(parent, x), y) == Root(parent, y)
    decreases y
  {
    var parent' := Halved(parent, x);
    assert StepsDown(parent, x) && StepsDown(parent, parent[x]);
    forall z | z in parent' ensures StepsDown(parent', z) {
      assert StepsDown(parent, z);
    }
    assert StepsDown(parent, y) && StepsDown(parent, parent[y]);
    if parent[y] != y {
      HalvingKeepsRoots(parent, x, parent[y]);
      if parent[parent[y]] != parent[y] { HalvingKeepsRoots(parent, x, parent[parent[y]]); }
    }
  }

  /** The same ids, each with the same root. */
  ghost predicate SameRoots(a: map<Id, Id>, b: map<Id, Id>) {
    && a.Keys == b.Keys && Down(a) && Down(b)
    && forall y {:trigger Root(b, y)} | y in a :: Root(b, y) == Root(a, y)
  }

  lemma HalvedSameRoots(parent: map<Id, Id>, x: Id)
    requires Down(parent) && x in parent
    ensures SameRoots(parent, Halved(parent, x))
  {
    HalvingKeepsRoots(parent, x, x);
    assert StepsDown(parent, x);
    forall y | y in parent ensures Root(Halved(parent, x), y) == Root(parent, y) {
      HalvingKeepsRoots(parent, x, y);
    }
  }

  lemma SameRootsThen(a: map<Id, Id>, b: map<Id, Id>, c: map<Id, Id>)
    requires SameRoots(a, b) && SameRoots(b, c)
    ensures SameRoots(a, c)
  {
  }

  lemma RootStays(a: map<Id, Id>, b: map<Id, Id>, x: Id)
    requires SameRoots(a, b) && x in a
    ensures Down(a) && Down(b) && Root(b, x) == Root(a, x)
  {
  }

  /** Joining two roots, the larger under the smaller, sends one's tree to the other. */
  lemma {:induction false} UnionMovesRoot(parent: map<Id, Id>, lo: Id, hi: Id, y: Id)
    requires Down(parent) && lo in parent && hi in parent && lo < hi && parent[lo] == lo && parent[hi] == hi &&
             y in parent
    ensures var parent' := parent[hi := lo];
            Down(parent') && Root(parent', y) == if Root(parent, y) == hi then lo else Root(parent, y)
    decreases y
  {
    var parent' := parent[hi := lo];
    forall z | z in parent' ensures StepsDown(parent', z) {
      assert StepsDown(parent, z);
    }
    assert StepsDown(parent, y);
    if parent[y] != y {
      UnionMovesRoot(parent, lo, hi, parent[y]);
    }
  }

  /** Where union-find stands after these links. */
  ghost predicate Tracks(ids: set<Id>, links: Links, parent: map<Id, Id>) {
    && parent.Keys == ids && Down(parent)
    && (forall x {:trigger ReachesRoot(ids, links, parent, x)} | x in ids :: ReachesRoot(ids, links, parent, x))
    && (forall a, b {:trigger Joined(ids, links, a, b)} | Joined(ids, links, a, b) :: Root(parent, a) == Root(parent, b))
  }

  ghost predicate ReachesRoot(ids: set<Id>, links: Links, parent: map<Id, Id>, x: Id)
    requires Down(parent) && x in parent
  {
    Connected(ids, links, x, Root(parent, x))
  }

  lemma {:induction false} PathKeepsRoot(ids: set<Id>, links: Links, parent: map<Id, Id>, p: seq<Id>)
    requires Tracks(ids, links, parent) && IsPath(ids, links, p)
    ensures p[|p| - 1] in ids && Root(parent, p[0]) == Root(parent, p[|p| - 1])
  {
    if |p| > 1 {
      assert Joined(ids, links, p[|p| - 2], p[|p| - 1]);
      PathKeepsRoot(ids, links, parent, p[..|p| - 1]);
    }
  }

  /** Two threads have the same root exactly when they are connected. */
  lemma SameRootIff(ids: set<Id>, links: Links, parent: map<Id, Id>, a: Id, b: Id)
    requires Tracks(ids, links, parent) && a in ids && b in ids
    ensures Root(parent, a) == Root(parent, b) <==> Connected(ids, links, a, b)
  {
    if Root(parent, a) == Root(parent, b) {
      assert ReachesRoot(ids, links, parent, a) && ReachesRoot(ids, links, parent, b);
      ConnectedBack(ids, links, b, Root(parent, b));
      ConnectedThrough(ids, links, a, Root(parent, a), b);
    }
    if Connected(ids, links, a, b) {
      var p :| IsPath(ids, links, p) && p[0] == a && p[|p| - 1] == b;
      PathKeepsRoot(ids, links, parent, p);
    }
  }

  lemma StartTracks(ids: set<Id>, parent: map<Id, Id>)
    requires parent.Keys == ids && forall x <- ids :: parent[x] == x
    ensures Tracks(ids, {}, parent)
  {
    forall x | x in ids ensures StepsDown(parent, x) {}
    forall x | x in ids ensures ReachesRoot(ids, {}, parent, x) {
      ConnectedSelf(ids, {}, x);
    }
  }

  /** A link to a thread that is not shown joins nothing. */
  lemma SkippedLink(ids: set<Id>, links: Links, parent: map<Id, Id>, l: (Id, Id))
    requires Tracks(ids, links, parent) && !(l.0 in ids && l.1 in ids)
    ensures Tracks(ids, links + {l}, parent)
  {
    forall x | x in ids ensures ReachesRoot(ids, links + {l}, parent, x) {
      assert ReachesRoot(ids, links, parent, x);
      ConnectedGrows(ids, links, links + {l}, x, Root(parent, x));
    }
    forall a, b | Joined(ids, links + {l}, a, b) ensures Root(parent, a) == Root(parent, b) {
      assert Joined(ids, links, a, b);
    }
  }

  lemma UnionConnects(ids: set<Id>, links: Links, parent: map<Id, Id>, a: Id, b: Id, x: Id)
    requires Tracks(ids, links, parent) && a in ids && b in ids && x in ids
    ensures var links' := links + {(a, b)};
            Connected(ids, links', x, Root(parent, x)) && Connected(ids, links', Root(parent, a), Root(parent, b)) &&
            Connected(ids, links', Root(parent, b), Root(parent, a))
  {
    var links' := links + {(a, b)};
    assert ReachesRoot(ids, links, parent, x) && ReachesRoot(ids, links, parent, a) &&
           ReachesRoot(ids, links, parent, b);
    ConnectedGrows(ids, links, links', x, Root(parent, x));
    ConnectedGrows(ids, links, links', a, Root(parent, a));
    ConnectedGrows(ids, links, links', b, Root(parent, b));
    ConnectedBack(ids, links', a, Root(parent, a));
    ConnectedStep(ids, links', a, b);
    ConnectedThrough(ids, links', Root(parent, a), a, b);
    ConnectedThrough(ids, links', Root(parent, a), b, Root(parent, b));
    ConnectedBack(ids, links', Root(parent, a), Root(parent, b));
  }

  function Lower(a: Id, b: Id): Id { if a <= b then a else b }

  function Higher(a: Id, b: Id): Id { if a <= b then b else a }

  /** The parents after a link between a and b. */
  ghost function LinkedUp(parent: map<Id, Id>, a: Id, b: Id): map<Id, Id>
    requires Down(parent) && a in parent && b in parent
  {
    var ra, rb := Root(parent, a), Root(parent, b);
    if ra == rb then parent else parent[Higher(ra, rb) := Lower(ra, rb)]
  }

  lemma LinkedRoots(parent: map<Id, Id>, a: Id, b: Id, y: Id)
    requires Down(parent) && a in parent && b in parent && y in parent
    ensures var ra, rb := Root(parent, a), Root(parent, b);
            Down(LinkedUp(parent, a, b)) &&
            Root(LinkedUp(parent, a, b), y) == if Root(parent, y) in {ra, rb} then Lower(ra, rb) else Root(parent, y)
  {
    var ra, rb := Root(parent, a), Root(parent, b);
    if ra != rb { UnionMovesRoot(parent, Lower(ra, rb), Higher(ra, rb), y); }
  }

  lemma LinkTracks(ids: set<Id>, links: Links, parent: map<Id, Id>, a: Id, b: Id)
    requires Tracks(ids, links, parent) && a in ids && b in ids
    ensures Tracks(ids, links + {(a, b)}, LinkedUp(parent, a, b))
  {
    var ra, rb, links', parent' := Root(parent, a), Root(parent, b), links + {(a, b)}, LinkedUp(parent, a, b);
    assert parent'.Keys == ids;
    LinkedRoots(parent, a, b, a);
    hide LinkedUp, Root, Connected;
    forall x | x in ids ensures ReachesRoot(ids, links', parent', x) {
      LinkedRoots(parent, a, b, x);
      UnionConnects(ids, links, parent, a, b, x);
      if Root(parent', x) != Root(parent, x) {
        ConnectedThrough(ids, links', x, Root(parent, x), Root(parent', x));
      }
    }
    forall c, d | Joined(ids, links', c, d) ensures Root(parent', c) == Root(parent', d) {
      LinkedRoots(parent, a, b, c);
      LinkedRoots(parent, a, b, d);
      if Joined(ids, links, c, d) { assert Root(parent, c) == Root(parent, d); }
    }
  }

  /** find and the links, as the code runs them: parents are updated in place. */
  class UnionFind {
    var parent: map<Id, Id>

    constructor (ids: set<Id>)
      ensures Tracks(ids, {}, parent)
    {
      parent := map x | x in ids :: x;
      new;
      StartTracks(ids, parent);
    }

    /** The root of x. On the way up, each thread passed is pointed at its grandparent. */
    method Find(x: Id) returns (r: Id)
      requires Down(parent) && x in parent
      modifies this
      ensures SameRoots(old(parent), parent)
      ensures r == Root(old(parent), x)
    {
      r := x;
      while parent[r] != r
        invariant SameRoots(old(parent), parent) && r in parent
        invariant Root(parent, r) == Root(old(parent), x)
        decreases r
      {
        assert StepsDown(parent, r) && StepsDown(parent, parent[r]);
        HalvedSameRoots(parent, r);
        SameRootsThen(old(parent), parent, Halved(parent, r));
        parent := parent[r := parent[parent[r]]];
        r := parent[r];
      }
    }

    /** One active link. */
    method Link(ghost ids: set<Id>, ghost links: Links, a: Id, b: Id)
      requires Tracks(ids, links, parent)
      modifies this
      ensures Tracks(ids, links + {(a, b)}, parent)
    {
      if a !in parent || b !in parent {
        SkippedLink(ids, links, parent, (a, b));
        return;
      }
      var ra := Find(a);
      ghost var before := parent;
      var rb := Find(b);
      SameRootsThen(old(parent), before, parent);
      RootsKept(ids, links, old(parent), parent);
      LinkTracks(ids, links, parent, a, b);
      if ra != rb {
        parent := parent[Higher(ra, rb) := Lower(ra, rb)];
      }
    }
  }

  lemma RootsKept(ids: set<Id>, links: Links, parent: map<Id, Id>, parent': map<Id, Id>)
    requires Tracks(ids, links, parent) && SameRoots(parent, parent')
    ensures Tracks(ids, links, parent')
  {
    forall x | x in ids ensures ReachesRoot(ids, links, parent', x) {
      assert ReachesRoot(ids, links, parent, x);
    }
    forall a, b | Joined(ids, links, a, b) ensures Root(parent', a) == Root(parent', b) {
      assert Root(parent, a) == Root(parent, b);
    }
  }

  // ---- The clusters ----

  ghost function Component(ids: set<Id>, links: Links, x: Id): set<Id> {
    set y | y in ids && Connected(ids, links, x, y)
  }

  /** Worth an entry: none is in one, all have a digest, and it is two or more threads, or one
      with enough comments. */
  predicate Qualifies(infos: map<Id, Info>, c: set<Id>)
    requires c <= infos.Keys
  {
    && (forall x <- c :: !infos[x].inEntry && infos[x].digested)
    && (|c| >= 2 || exists x <- c :: infos[x].comments >= FAQ_MIN_COMMENTS)
  }

  ghost predicate Increasing(s: seq<Id>) {
    forall i, j | 0 <= i < j < |s| :: s[i] < s[j]
  }

  function Ids(s: seq<Id>): set<Id> { set x | x in s }

  /** One cluster: a whole component that qualifies, written oldest first. */
  ghost predicate IsCluster(infos: map<Id, Info>, links: Links, c: seq<Id>) {
    && c != [] && Increasing(c) && Ids(c) == Component(infos.Keys, links, c[0]) && Qualifies(infos, Ids(c))
  }

  ghost predicate ByAnchor(out: seq<seq<Id>>) {
    (forall i | 0 <= i < |out| :: out[i] != []) && forall i, j | 0 <= i < j < |out| :: out[i][0] < out[j][0]
  }

  /** What the nightly batch should find: every component that qualifies and nothing else, each
      oldest first, and all by their oldest thread. */
  ghost predicate IsAnswer(infos: map<Id, Info>, links: Links, out: seq<seq<Id>>) {
    && (forall c <- out :: IsCluster(infos, links, c))
    && ByAnchor(out)
    && (forall x <- infos :: Qualifies(infos, Component(infos.Keys, links, x)) ==> exists c <- out :: x in c)
  }

  lemma IdsButLast(s: seq<Id>)
    requires s != [] && Increasing(s)
    ensures Ids(s[..|s| - 1]) == Ids(s) - {s[|s| - 1]} && s[|s| - 1] in Ids(s)
  {
  }

  lemma {:induction false} IncreasingIsItsSet(s: seq<Id>, t: seq<Id>)
    requires Increasing(s) && Increasing(t) && Ids(s) == Ids(t)
    ensures s == t
    decreases |s|
  {
    assert (s != [] ==> s[0] in Ids(s)) && (t != [] ==> t[0] in Ids(t));
    if s != [] {
      IdsButLast(s);
      IdsButLast(t);
      assert s[|s| - 1] in t && t[|t| - 1] in s;
      IncreasingIsItsSet(s[..|s| - 1], t[..|t| - 1]);
    }
  }

  lemma ComponentOfMember(ids: set<Id>, links: Links, x: Id, y: Id)
    requires y in Component(ids, links, x)
    ensures Component(ids, links, y) == Component(ids, links, x)
  {
    ConnectedBack(ids, links, x, y);
    forall z | z in ids ensures Connected(ids, links, x, z) <==> Connected(ids, links, y, z) {
      if Connected(ids, links, x, z) { ConnectedThrough(ids, links, y, x, z); }
      if Connected(ids, links, y, z) { ConnectedThrough(ids, links, x, y, z); }
    }
  }

  lemma SameCluster(infos: map<Id, Info>, links: Links, c: seq<Id>, d: seq<Id>, x: Id)
    requires IsCluster(infos, links, c) && IsCluster(infos, links, d) && x in c && x in d
    ensures c == d
  {
    ComponentOfMember(infos.Keys, links, c[0], x);
    ComponentOfMember(infos.Keys, links, d[0], x);
    IncreasingIsItsSet(c, d);
  }

  lemma EachIsInTheOther(infos: map<Id, Info>, links: Links, out: seq<seq<Id>>, out': seq<seq<Id>>, c: seq<Id>)
    requires IsAnswer(infos, links, out) && IsAnswer(infos, links, out') && c in out
    ensures c in out'
  {
    assert IsCluster(infos, links, c);
    var x := c[0];
    assert x in Ids(c) && x in Component(infos.Keys, links, x);
    var d :| d in out' && x in d;
    SameCluster(infos, links, c, d, x);
  }

  function Anchors(out: seq<seq<Id>>): seq<Id>
    requires forall i | 0 <= i < |out| :: out[i] != []
  {
    seq(|out|, i requires 0 <= i < |out| => out[i][0])
  }

  lemma AnchorsAre(out: seq<seq<Id>>, out': seq<seq<Id>>)
    requires ByAnchor(out) && ByAnchor(out') && forall c <- out :: c in out'
    ensures forall x <- Anchors(out) :: x in Anchors(out')
  {
    forall x | x in Anchors(out) ensures x in Anchors(out') {
      var i :| 0 <= i < |out| && Anchors(out)[i] == x;
      assert out[i] in out;
      var j :| 0 <= j < |out'| && out'[j] == out[i];
      assert Anchors(out')[j] == x;
    }
  }

  lemma SameAnchors(out: seq<seq<Id>>, out': seq<seq<Id>>)
    requires ByAnchor(out) && ByAnchor(out') && (forall c <- out :: c in out') && (forall c <- out' :: c in out)
    ensures Anchors(out) == Anchors(out')
  {
    AnchorsAre(out, out');
    AnchorsAre(out', out);
    assert Ids(Anchors(out)) == Ids(Anchors(out'));
    IncreasingIsItsSet(Anchors(out), Anchors(out'));
  }

  lemma SameByAnchor(out: seq<seq<Id>>, out': seq<seq<Id>>)
    requires ByAnchor(out) && ByAnchor(out') && (forall c <- out :: c in out') && (forall c <- out' :: c in out)
    ensures out == out'
  {
    SameAnchors(out, out');
    assert |out| == |Anchors(out)| == |out'|;
    forall i | 0 <= i < |out| ensures out[i] == out'[i] {
      assert out[i][0] == Anchors(out)[i] == Anchors(out')[i] == out'[i][0];
      assert out[i] in out;
      var j :| 0 <= j < |out'| && out'[j] == out[i];
    }
  }

  /** Main result. The answer is unique, so it depends neither on the order of the links nor on the
      order in which maps are walked: every node finds the same clusters in the same order. */
  lemma AnswerIsUnique(infos: map<Id, Info>, links: Links, out: seq<seq<Id>>, out': seq<seq<Id>>)
    requires IsAnswer(infos, links, out) && IsAnswer(infos, links, out')
    ensures out == out'
  {
    forall c <- out ensures c in out' { EachIsInTheOther(infos, links, out, out', c); }
    forall c <- out' ensures c in out { EachIsInTheOther(infos, links, out', out, c); }
    SameByAnchor(out, out');
  }

  // ---- The code ----

  function Itself(x: Id): Id { x }

  function Anchor(c: seq<Id>): Id { if c == [] then 0 else c[0] }

  /** sort.Slice by a key that no two items share. */
  method SortBy<T(==)>(items: seq<T>, key: T -> Id) returns (s: seq<T>)
    requires forall i, j | 0 <= i < j < |items| :: key(items[i]) != key(items[j])
    ensures forall i, j | 0 <= i < j < |s| :: key(s[i]) < key(s[j])
    ensures forall x :: x in s <==> x in items
  {
    s := [];
    for n := 0 to |items|
      invariant forall i, j | 0 <= i < j < |s| :: key(s[i]) < key(s[j])
      invariant forall x :: x in s <==> x in items[..n]
    {
      assert items[..n + 1] == items[..n] + [items[n]];
      forall i | 0 <= i < |s| ensures key(s[i]) != key(items[n]) {
        assert s[i] in items[..n];
      }
      s := InsertBy(s, items[n], key);
    }
    assert items[..|items|] == items;
  }

  method InsertBy<T(==)>(s: seq<T>, item: T, key: T -> Id) returns (r: seq<T>)
    requires forall i, j | 0 <= i < j < |s| :: key(s[i]) < key(s[j])
    requires forall i | 0 <= i < |s| :: key(s[i]) != key(item)
    ensures forall i, j | 0 <= i < j < |r| :: key(r[i]) < key(r[j])
    ensures forall x :: x in r <==> x in s || x == item
  {
    var k := 0;
    while k < |s| && key(s[k]) < key(item)
      invariant 0 <= k <= |s|
      invariant forall i | 0 <= i < k :: key(s[i]) < key(item)
    {
      k := k + 1;
    }
    assert s == s[..k] + s[k..];
    r := s[..k] + [item] + s[k..];
  }

  /** The ids walked so far, by their root. */
  ghost predicate Grouped(parent: map<Id, Id>, done: set<Id>, groups: map<Id, seq<Id>>) {
    && Down(parent) && done <= parent.Keys
    && (forall r <- groups :: groups[r] != [] && forall i, j | 0 <= i < j < |groups[r]| :: groups[r][i] != groups[r][j])
    && (forall r, y | r in groups && y in groups[r] :: y in done && Root(parent, y) == r)
    && (forall y <- done :: Root(parent, y) in groups && y in groups[Root(parent, y)])
  }

  lemma GroupOne(parent: map<Id, Id>, done: set<Id>, groups: map<Id, seq<Id>>, x: Id)
    requires Grouped(parent, done, groups) && x in parent && x !in done
    ensures var r := Root(parent, x);
            Grouped(parent, done + {x}, groups[r := (if r in groups then groups[r] else []) + [x]])
  {
  }

  /** Walking the threads: those done are grouped, and halving on the way has moved no root. (The
      comparison with true keeps it in one piece for the verifier.) */
  ghost predicate Walked(ids: set<Id>, links: Links, start: map<Id, Id>, parent: map<Id, Id>, done: set<Id>,
                         groups: map<Id, seq<Id>>) {
    (Tracks(ids, links, start) && SameRoots(start, parent) && Grouped(start, done, groups)) == true
  }

  /** One thread, appended to its root's group. */
  method GroupNext(uf: UnionFind, ghost ids: set<Id>, ghost links: Links, ghost start: map<Id, Id>, ghost done: set<Id>,
                   groups: map<Id, seq<Id>>, x: Id)
    returns (groups': map<Id, seq<Id>>)
    requires Walked(ids, links, start, uf.parent, done, groups) && x in ids && x !in done
    modifies uf
    ensures Walked(ids, links, start, uf.parent, done + {x}, groups')
  {
    GroupOne(start, done, groups, x);
    RootStays(start, uf.parent, x);
    ghost var before := uf.parent;
    hide Grouped, Root, Down, Tracks;
    var r := uf.Find(x);
    hide SameRoots;
    SameRootsThen(start, before, uf.parent);
    groups' := groups[r := (if r in groups then groups[r] else []) + [x]];
  }

  method Group(uf: UnionFind, ghost ids: set<Id>, ghost links: Links) returns (groups: map<Id, seq<Id>>)
    requires Tracks(ids, links, uf.parent)
    modifies uf
    ensures Tracks(ids, links, uf.parent) && Grouped(uf.parent, ids, groups)
  {
    hide Walked, Grouped, Tracks;
    WalkStarts(ids, links, uf.parent);
    ghost var start, done: set<Id> := uf.parent, {};
    groups := map[];
    var todo := uf.parent.Keys;
    while todo != {}
      invariant Walked(ids, links, start, uf.parent, done, groups)
      invariant todo == ids - done && done <= ids
      decreases |todo|
    {
      var x :| x in todo;
      todo := todo - {x};
      groups := GroupNext(uf, ids, links, start, done, groups, x);
      done := done + {x};
    }
    assert done == ids;
    WalkEnds(ids, links, start, uf.parent, groups);
  }

  lemma WalkStarts(ids: set<Id>, links: Links, parent: map<Id, Id>)
    requires Tracks(ids, links, parent)
    ensures parent.Keys == ids && Walked(ids, links, parent, parent, {}, map[])
  {
  }

  lemma WalkEnds(ids: set<Id>, links: Links, start: map<Id, Id>, parent: map<Id, Id>, groups: map<Id, seq<Id>>)
    requires Walked(ids, links, start, parent, ids, groups)
    ensures Tracks(ids, links, parent) && Grouped(parent, ids, groups)
  {
    RootsKept(ids, links, start, parent);
    SameGroups(start, parent, ids, groups);
  }

  lemma SameGroups(parent: map<Id, Id>, parent': map<Id, Id>, ids: set<Id>, groups: map<Id, seq<Id>>)
    requires Grouped(parent, ids, groups) && parent.Keys == ids && SameRoots(parent, parent')
    ensures Grouped(parent', ids, groups)
  {
  }

  /** A group, put in order, is the component of its root, and the root is its oldest thread. */
  lemma GroupIsComponent(ids: set<Id>, links: Links, parent: map<Id, Id>, groups: map<Id, seq<Id>>, r: Id, s: seq<Id>)
    requires Tracks(ids, links, parent) && Grouped(parent, ids, groups) && r in groups
    requires Increasing(s) && forall y :: y in s <==> y in groups[r]
    ensures s != [] && s[0] == r && r in ids && Ids(s) == Component(ids, links, r) && Ids(s) <= ids
  {
    var x := groups[r][0];
    assert x in groups[r] && Root(parent, x) == r && Root(parent, r) == r;
    assert r in groups[r];
    forall y | y in ids ensures y in s <==> Connected(ids, links, r, y) {
      SameRootIff(ids, links, parent, r, y);
    }
    assert r in s && s[0] in s;
    assert Root(parent, s[0]) == r;
  }

  /** The filter: covered, ready, and how many comments. */
  method Worth(infos: map<Id, Info>, ids: seq<Id>) returns (yes: bool)
    requires ids != [] && Increasing(ids) && Ids(ids) <= infos.Keys
    ensures yes <==> Qualifies(infos, Ids(ids))
  {
    var covered, ready, comments := false, true, 0;
    for i := 0 to |ids|
      invariant covered <==> exists k | 0 <= k < i :: infos[ids[k]].inEntry
      invariant ready <==> forall k | 0 <= k < i :: infos[ids[k]].digested
      invariant i == 1 ==> comments == infos[ids[0]].comments
      invariant i == 0 ==> comments == 0
    {
      assert ids[i] in Ids(ids);
      covered := covered || infos[ids[i]].inEntry;
      ready := ready && infos[ids[i]].digested;
      comments := comments + infos[ids[i]].comments;
    }
    yes := !(covered || !ready || (|ids| < 2 && comments < FAQ_MIN_COMMENTS));
    WorthMeans(infos, ids);
  }

  lemma WorthMeans(infos: map<Id, Info>, ids: seq<Id>)
    requires ids != [] && Increasing(ids) && Ids(ids) <= infos.Keys
    ensures (forall x <- Ids(ids) :: !infos[x].inEntry) <==>
            forall k | 0 <= k < |ids| :: ids[k] in Ids(ids) && !infos[ids[k]].inEntry
    ensures (forall x <- Ids(ids) :: infos[x].digested) <==>
            forall k | 0 <= k < |ids| :: ids[k] in Ids(ids) && infos[ids[k]].digested
    ensures |ids| == 1 ==> Ids(ids) == {ids[0]}
    ensures |ids| >= 2 ==> |Ids(ids)| >= 2
  {
    assert forall k | 0 <= k < |ids| :: ids[k] in Ids(ids);
    if |ids| >= 2 {
      assert {ids[0], ids[1]} <= Ids(ids);
      SubsetSize({ids[0], ids[1]}, Ids(ids));
    }
  }

  /** The clusters collected from the groups of these roots. */
  ghost predicate Collected(infos: map<Id, Info>, links: Links, roots: set<Id>, out: seq<seq<Id>>) {
    && (forall c <- out :: IsCluster(infos, links, c) && c[0] in roots)
    && (forall i | 0 <= i < |out| :: out[i] != []) && (forall i, j | 0 <= i < j < |out| :: out[i][0] != out[j][0])
    && (forall r <- roots :: r in infos &&
         (Qualifies(infos, Component(infos.Keys, links, r)) ==> exists c <- out :: c[0] == r))
  }

  lemma CollectNone(infos: map<Id, Info>, links: Links)
    ensures Collected(infos, links, {}, [])
  {
  }

  lemma CollectOne(infos: map<Id, Info>, links: Links, roots: set<Id>, out: seq<seq<Id>>, r: Id, c: seq<Id>)
    requires Collected(infos, links, roots, out) && r !in roots && r in infos
    requires c != [] && c[0] == r && Increasing(c) && Ids(c) == Component(infos.Keys, links, r)
    ensures Qualifies(infos, Ids(c)) ==> Collected(infos, links, roots + {r}, out + [c])
    ensures !Qualifies(infos, Ids(c)) ==> Collected(infos, links, roots + {r}, out)
  {
  }

  lemma CollectedAll(infos: map<Id, Info>, links: Links, parent: map<Id, Id>, groups: map<Id, seq<Id>>,
                     out: seq<seq<Id>>, sorted: seq<seq<Id>>)
    requires Tracks(infos.Keys, links, parent) && Grouped(parent, infos.Keys, groups) &&
             Collected(infos, links, groups.Keys, out)
    requires ByAnchor(sorted) && forall c :: c in sorted <==> c in out
    ensures IsAnswer(infos, links, sorted)
  {
    hide Qualifies;
    forall x <- infos ensures Qualifies(infos, Component(infos.Keys, links, x)) ==> exists c <- sorted :: x in c {
      var r := Root(parent, x);
      assert ReachesRoot(infos.Keys, links, parent, x);
      ComponentOfMember(infos.Keys, links, x, r);
      if Qualifies(infos, Component(infos.Keys, links, x)) {
        var c :| c in out && c[0] == r;
        ConnectedSelf(infos.Keys, links, x);
        assert x in Ids(c);
        assert c in sorted && x in c;
      }
    }
  }

  lemma KeysDiffer(parent: map<Id, Id>, ids: set<Id>, groups: map<Id, seq<Id>>, r: Id)
    requires Grouped(parent, ids, groups) && r in groups
    ensures forall i, j | 0 <= i < j < |groups[r]| :: Itself(groups[r][i]) != Itself(groups[r][j])
  {
  }

  lemma SortedIncreasing(s: seq<Id>)
    requires forall i, j | 0 <= i < j < |s| :: Itself(s[i]) < Itself(s[j])
    ensures Increasing(s)
  {
  }

  lemma AnchorsDiffer(infos: map<Id, Info>, links: Links, roots: set<Id>, out: seq<seq<Id>>)
    requires Collected(infos, links, roots, out)
    ensures forall i, j | 0 <= i < j < |out| :: Anchor(out[i]) != Anchor(out[j])
  {
  }

  lemma SortedByAnchor(infos: map<Id, Info>, links: Links, roots: set<Id>, out: seq<seq<Id>>, was: seq<seq<Id>>)
    requires (forall c :: c in out <==> c in was) && Collected(infos, links, roots, was)
    requires forall i, j | 0 <= i < j < |out| :: Anchor(out[i]) < Anchor(out[j])
    ensures ByAnchor(out)
  {
    forall i | 0 <= i < |out| ensures out[i] != [] { assert out[i] in was; }
  }

  /** The links, one by one, in whatever order the rows come. */
  method JoinAll(ids: set<Id>, rows: seq<(Id, Id)>) returns (uf: UnionFind)
    ensures fresh(uf) && Tracks(ids, (set l | l in rows), uf.parent)
  {
    hide Tracks;
    uf := new UnionFind(ids);
    ghost var links: Links := {};
    for i := 0 to |rows|
      invariant links == (set l | l in rows[..i])
      invariant fresh(uf) && Tracks(ids, links, uf.parent)
    {
      uf.Link(ids, links, rows[i].0, rows[i].1);
      assert rows[..i + 1] == rows[..i] + [rows[i]];
      links := links + {(rows[i].0, rows[i].1)};
    }
    assert rows[..|rows|] == rows;
  }

  /** One group: put in order, and kept if it is worth an entry. */
  method CollectGroup(infos: map<Id, Info>, ghost links: Links, ghost parent: map<Id, Id>, groups: map<Id, seq<Id>>,
                      ghost done: set<Id>, r: Id, out: seq<seq<Id>>) returns (out': seq<seq<Id>>)
    requires Tracks(infos.Keys, links, parent) && Grouped(parent, infos.Keys, groups)
    requires Collected(infos, links, done, out) && r in groups && r !in done
    ensures Collected(infos, links, done + {r}, out')
  {
    hide Tracks, Grouped, Collected, Qualifies, Component;
    KeysDiffer(parent, infos.Keys, groups, r);
    var ids := SortBy(groups[r], Itself);
    SortedIncreasing(ids);
    hide Increasing;
    GroupIsComponent(infos.Keys, links, parent, groups, r, ids);
    var worth := Worth(infos, ids);
    CollectOne(infos, links, done, out, r, ids);
    out' := if worth then out + [ids] else out;
  }

  /** Every group, in whatever order the map is walked. */
  method CollectAll(infos: map<Id, Info>, ghost links: Links, ghost parent: map<Id, Id>, groups: map<Id, seq<Id>>)
    returns (out: seq<seq<Id>>)
    requires Tracks(infos.Keys, links, parent) && Grouped(parent, infos.Keys, groups)
    ensures Collected(infos, links, groups.Keys, out)
  {
    hide Grouped, Tracks, Collected;
    out := [];
    var todo := groups.Keys;
    ghost var all, done: set<Id> := todo, {};
    CollectNone(infos, links);
    while todo != {}
      invariant todo == all - done && done <= all
      invariant Collected(infos, links, done, out)
      decreases |todo|
    {
      var r :| r in todo;
      todo := todo - {r};
      out := CollectGroup(infos, links, parent, groups, done, r, out);
      done := done + {r};
    }
    assert done == all;
  }

  /** uncoveredClusters. The links come in any order, groups are walked in any order. */
  method UncoveredClusters(infos: map<Id, Info>, rows: seq<(Id, Id)>) returns (out: seq<seq<Id>>)
    ensures IsAnswer(infos, (set l | l in rows), out)
  {
    hide Grouped, Tracks, Collected, IsAnswer, ByAnchor;
    ghost var links := set l | l in rows;
    var uf := JoinAll(infos.Keys, rows);
    var groups := Group(uf, infos.Keys, links);
    var found := CollectAll(infos, links, uf.parent, groups);
    AnchorsDiffer(infos, links, groups.Keys, found);
    out := SortBy(found, Anchor);
    SortedByAnchor(infos, links, groups.Keys, out, found);
    CollectedAll(infos, links, uf.parent, groups, found, out);
  }

  // ---- What an entry is written from (internal/store/faq.go) ----

  method Sorted(ids: set<Id>) returns (s: seq<Id>)
    ensures Increasing(s) && Ids(s) == ids
  {
    s := [];
    var todo := ids;
    while todo != {}
      invariant forall i, j | 0 <= i < j < |s| :: Itself(s[i]) < Itself(s[j])
      invariant forall x :: x in s <==> x in ids && x !in todo
      invariant todo <= ids
      decreases |todo|
    {
      var x :| x in todo;
      todo := todo - {x};
      s := InsertBy(s, x, Itself);
    }
    SortedIncreasing(s);
  }

  /** All that a thread in done links to has been found. */
  ghost predicate ClosedUnder(ids: set<Id>, links: Links, done: set<Id>, found: set<Id>) {
    forall x, y {:trigger Joined(ids, links, x, y)} | x in done && Joined(ids, links, x, y) :: y in found
  }

  lemma {:induction false} ClosedHoldsPaths(ids: set<Id>, links: Links, found: set<Id>, p: seq<Id>)
    requires ClosedUnder(ids, links, found, found) && IsPath(ids, links, p) && p[0] in found
    ensures p[|p| - 1] in found
  {
    if |p| > 1 {
      assert Joined(ids, links, p[|p| - 2], p[|p| - 1]);
      ClosedHoldsPaths(ids, links, found, p[..|p| - 1]);
    }
  }

  lemma ClosedIsComponent(ids: set<Id>, links: Links, found: set<Id>, post: Id)
    requires post in found && found <= Component(ids, links, post) && ClosedUnder(ids, links, found, found)
    ensures found == Component(ids, links, post)
  {
    forall y | y in Component(ids, links, post) ensures y in found {
      var p :| IsPath(ids, links, p) && p[0] == post && p[|p| - 1] == y;
      ClosedHoldsPaths(ids, links, found, p);
    }
  }

  /** The queue so far: distinct threads of the post's component, the post itself first. */
  ghost predicate Searching(ids: set<Id>, links: Links, post: Id, queue: seq<Id>) {
    && |queue| > 0 && queue[0] == post && Ids(queue) <= Component(ids, links, post) && |Ids(queue)| == |queue|
  }

  lemma SearchOne(ids: set<Id>, links: Links, post: Id, queue: seq<Id>, x: Id, y: Id)
    requires Searching(ids, links, post, queue) && x in Ids(queue) && Joined(ids, links, x, y) && y !in Ids(queue)
    ensures Searching(ids, links, post, queue + [y]) && Ids(queue + [y]) == Ids(queue) + {y}
  {
    ConnectedStep(ids, links, x, y);
    ConnectedThrough(ids, links, post, x, y);
    assert (queue + [y])[0] == post;
    assert Ids(queue + [y]) == Ids(queue) + {y};
  }

  /** The threads at most d links away. */
  ghost function Near(ids: set<Id>, links: Links, post: Id, d: nat): set<Id> {
    if d == 0 then {post} else
      var nearer := Near(ids, links, post, d - 1);
      nearer + set y | y in ids && exists x :: x in nearer && Joined(ids, links, x, y)
  }

  lemma {:induction false} NearGrows(ids: set<Id>, links: Links, post: Id, d: nat, e: nat)
    requires d <= e
    ensures Near(ids, links, post, d) <= Near(ids, links, post, e)
    decreases e
  {
    if d < e { NearGrows(ids, links, post, d, e - 1); }
  }

  /** The first m of the queue are the threads at most d links away, and the rest one link further;
      the search has got to thread i. */
  ghost predicate Layered(ids: set<Id>, links: Links, post: Id, queue: seq<Id>, i: nat, m: nat, d: nat) {
    && i <= m <= |queue| && Near(ids, links, post, d) == Ids(queue[..m]) && Ids(queue) <= Near(ids, links, post, d + 1)
  }

  lemma FirstLayer(ids: set<Id>, links: Links, post: Id)
    ensures Layered(ids, links, post, [post], 0, 1, 0)
  {
    assert [post][..1] == [post] && Ids([post]) == {post};
    NearGrows(ids, links, post, 0, 1);
  }

  lemma LayerBounds(ids: set<Id>, links: Links, post: Id, queue: seq<Id>, i: nat, m: nat, d: nat)
    requires Layered(ids, links, post, queue, i, m, d)
    ensures i <= m <= |queue|
  {
  }

  /** A layer is done: the next is what has been found. */
  lemma NextLayer(ids: set<Id>, links: Links, post: Id, queue: seq<Id>, m: nat, d: nat)
    requires Layered(ids, links, post, queue, m, m, d) && ClosedUnder(ids, links, Ids(queue[..m]), Ids(queue)) &&
             m < |queue|
    ensures Layered(ids, links, post, queue, m, |queue|, d + 1)
  {
  }

  /** The neighbours of a thread in the layer belong to the next. */
  lemma VisitedLayer(ids: set<Id>, links: Links, post: Id, was: seq<Id>, queue: seq<Id>, i: nat, m: nat, d: nat)
    requires Layered(ids, links, post, was, i, m, d) && i < m && was <= queue
    requires forall y :: y in Ids(queue) ==> y in Ids(was) || Joined(ids, links, was[i], y)
    ensures Layered(ids, links, post, queue, i + 1, m, d)
  {
  }

  /** Nearest first: if a thread more than e links away was found, so were all within e. */
  lemma NearestFirst(ids: set<Id>, links: Links, post: Id, queue: seq<Id>, i: nat, m: nat, d: nat)
    requires Layered(ids, links, post, queue, i, m, d)
    ensures forall e: nat, x :: x in Ids(queue) && x !in Near(ids, links, post, e) ==>
              Near(ids, links, post, e) <= Ids(queue)
  {
    forall e: nat, x | x in Ids(queue) && x !in Near(ids, links, post, e)
      ensures Near(ids, links, post, e) <= Ids(queue)
    {
      if e > d { NearGrows(ids, links, post, d + 1, e); } else { NearGrows(ids, links, post, e, d); }
      PrefixIds(queue, m);
    }
  }

  lemma PrefixIds(queue: seq<Id>, m: nat)
    requires m <= |queue|
    ensures Ids(queue[..m]) <= Ids(queue)
  {
  }

  /** One thread's neighbours, oldest first, until there is no more room. */
  method Visit(ids: set<Id>, links: Links, ghost post: Id, queue: seq<Id>, x: Id, max: nat) returns (r: seq<Id>)
    requires Searching(ids, links, post, queue) && x in Ids(queue) && |queue| < max
    ensures Searching(ids, links, post, r) && queue <= r && |r| <= max
    ensures |r| < max ==> ClosedUnder(ids, links, {x}, Ids(r))
    ensures forall y :: y in Ids(r) ==> y in Ids(queue) || Joined(ids, links, x, y)
  {
    hide Component, Increasing;
    var next := Sorted(set y | y in ids && Joined(ids, links, x, y));
    r := queue;
    for i := 0 to |next|
      invariant Searching(ids, links, post, r) && queue <= r && |r| <= max && x in Ids(r)
      invariant forall y :: y in Ids(r) ==> y in Ids(queue) || Joined(ids, links, x, y)
      invariant |r| < max ==> forall k | 0 <= k < i :: next[k] in Ids(r)
    {
      assert next[i] in Ids(next);
      if next[i] !in r && |r| < max {
        SearchOne(ids, links, post, r, x, next[i]);
        r := r + [next[i]];
      }
    }
    forall y | Joined(ids, links, x, y) ensures |r| < max ==> y in Ids(r) {
      assert y in Ids(next);
    }
  }

  /** Cluster: a breadth-first search of at most max threads. It finds only threads connected to
      the post, the nearest first, and if it did not stop at the limit, all of them. (Links are followed through
      threads that are visible; the post itself need not be.) */
  method Cluster(visible: set<Id>, links: Links, post: Id, max: nat) returns (out: seq<Id>)
    ensures Increasing(out) && post in out && Ids(out) <= Component(visible + {post}, links, post)
    ensures |Ids(out)| <= Higher(1, max)
    ensures |Ids(out)| < max ==> Ids(out) == Component(visible + {post}, links, post)
    ensures forall e: nat, x :: x in Ids(out) && x !in Near(visible + {post}, links, post, e) ==>
              Near(visible + {post}, links, post, e) <= Ids(out)
  {
    var ids := visible + {post};
    var queue := [post];
    var i := 0;
    SearchStarts(ids, links, post, max);
    ghost var m: nat, d: nat := 1, 0;
    hide Component, Increasing, Near, Searched;
    while i < |queue| && |queue| < max
      invariant Searched(ids, links, post, queue, i, m, d, max) && i <= |queue| <= Higher(1, max)
      decreases Higher(1, max) - |queue|, |queue| - i
    {
      queue, m, d := VisitNext(ids, links, post, queue, i, m, d, max);
      i := i + 1;
    }
    SearchEnds(ids, links, post, queue, i, m, d, max);
    out := Sorted(Ids(queue));
  }

  /** A search under way, at thread i of its queue. */
  ghost predicate Searched(ids: set<Id>, links: Links, post: Id, queue: seq<Id>, i: nat, m: nat, d: nat, max: nat) {
    && Searching(ids, links, post, queue) && Layered(ids, links, post, queue, i, m, d)
    && (|queue| < max ==> ClosedUnder(ids, links, Ids(queue[..i]), Ids(queue)))
  }

  lemma SearchStarts(ids: set<Id>, links: Links, post: Id, max: nat)
    requires post in ids
    ensures Searched(ids, links, post, [post], 0, 1, 0, max)
  {
    ConnectedSelf(ids, links, post);
    FirstLayer(ids, links, post);
    assert Ids([post]) == {post} && [post][..0] == [] && Ids([]) == {};
  }

  /** The next thread of the queue, and with it perhaps the next layer. */
  method VisitNext(ids: set<Id>, links: Links, ghost post: Id, queue: seq<Id>, i: nat, ghost m: nat, ghost d: nat,
                   max: nat)
    returns (r: seq<Id>, ghost m': nat, ghost d': nat)
    requires Searched(ids, links, post, queue, i, m, d, max) && i < |queue| < max
    ensures Searched(ids, links, post, r, i + 1, m', d', max) && queue <= r && |r| <= max
  {
    hide Component, Increasing, Near, Layered, Joined;
    m', d' := m, d;
    LayerBounds(ids, links, post, queue, i, m, d);
    if i == m {
      NextLayer(ids, links, post, queue, m, d);
      m', d' := |queue|, d + 1;
    }
    assert queue[i] in Ids(queue);
    r := Visit(ids, links, post, queue, queue[i], max);
    VisitedLayer(ids, links, post, queue, r, i, m', d');
    ClosedOn(ids, links, queue, r, i, max);
  }

  lemma ClosedOn(ids: set<Id>, links: Links, was: seq<Id>, queue: seq<Id>, i: nat, max: nat)
    requires i < |was| && was <= queue && (|was| < max ==> ClosedUnder(ids, links, Ids(was[..i]), Ids(was)))
    requires |queue| < max ==> ClosedUnder(ids, links, {was[i]}, Ids(queue))
    ensures |queue| < max ==> ClosedUnder(ids, links, Ids(queue[..i + 1]), Ids(queue))
  {
  }

  lemma SearchEnds(ids: set<Id>, links: Links, post: Id, queue: seq<Id>, i: nat, m: nat, d: nat, max: nat)
    requires Searched(ids, links, post, queue, i, m, d, max) && (i == |queue| || |queue| >= max)
    ensures post in Ids(queue) && Ids(queue) <= Component(ids, links, post) && |Ids(queue)| == |queue|
    ensures |queue| < max ==> Ids(queue) == Component(ids, links, post)
    ensures forall e: nat, x :: x in Ids(queue) && x !in Near(ids, links, post, e) ==>
              Near(ids, links, post, e) <= Ids(queue)
  {
    hide Component, Near, Layered, Joined;
    assert queue[0] in Ids(queue) && queue[..|queue|] == queue;
    NearestFirst(ids, links, post, queue, i, m, d);
    if |queue| < max { ClosedIsComponent(ids, links, Ids(queue), post); }
  }
}
