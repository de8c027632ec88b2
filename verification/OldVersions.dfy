/**
 The earlier versions of an edited post or comment (internal/cmd/posts.go, purge.go). Each is
 numbered after how many are stored, and each goes when its own time is up; so after a purge that
 took some of them, an edit can run into a number that is still taken, and fail. When it does, for
 whatever versions are stored, and for every history of edits and purges.
 */
module OldVersions {
  import opened Types
  import opened Jobs
  import opened Tables
  import opened Commands
  import opened Content
  import opened Archive

  /** The stored versions of one item: number -> the time it may be purged. */
  type Rows = map<nat, int>

  function RowsOf(side: Side, item: Item): Rows {
    map v | v in Revisions(side, item) :: side.revisions[(item, v)]
  }

  function Saved(rows: Rows, at: int): Option<Rows> {
    var n := |rows.Keys| + 1;
    if n in rows then None else Some(rows[n := at + REVISION_KEEP])
  }

  function Expire(rows: Rows, before: int): Rows {
    map v | v in rows && rows[v] >= before :: rows[v]
  }

  // ---- These are the rows of the tables ----

  lemma RowIs(side: Side, item: Item, v: nat)
    ensures v in RowsOf(side, item) <==> (item, v) in side.revisions
    ensures v in RowsOf(side, item) ==> RowsOf(side, item)[v] == side.revisions[(item, v)]
  {
    if (item, v) in side.revisions { assert v in Revisions(side, item); }
  }

  lemma SaveIs(db: Db, item: Item, at: int)
    ensures SaveRevision(db, item, at).Some? <==> Saved(RowsOf(db.side, item), at).Some?
    ensures SaveRevision(db, item, at).Some? ==>
              RowsOf(SaveRevision(db, item, at).value.side, item) == Saved(RowsOf(db.side, item), at).value
  {
    assert RowsOf(db.side, item).Keys == Revisions(db.side, item);
    hide Revisions, RowsOf;
    var n := |Revisions(db.side, item)| + 1;
    RowIs(db.side, item, n);
    if SaveRevision(db, item, at).Some? { OneRowMore(db.side, item, n, at + REVISION_KEEP); }
  }

  lemma OneRowMore(side: Side, item: Item, n: nat, purgeAfter: int)
    ensures RowsOf(side.(revisions := side.revisions[(item, n) := purgeAfter]), item) ==
            RowsOf(side, item)[n := purgeAfter]
  {
    hide Revisions, RowsOf;
    var side' := side.(revisions := side.revisions[(item, n) := purgeAfter]);
    forall v: nat ensures v in RowsOf(side', item) <==> v == n || v in RowsOf(side, item) {
      RowIs(side', item, v);
      RowIs(side, item, v);
    }
    forall v | v in RowsOf(side', item) ensures RowsOf(side', item)[v] == RowsOf(side, item)[n := purgeAfter][v] {
      RowIs(side', item, v);
      RowIs(side, item, v);
    }
  }

  lemma PurgeIs(db: Db, item: Item, before: int)
    requires Stays(KeptPosts(db.posts, before).Keys, KeptComments(db.posts, db.comments, before).Keys, item)
    ensures RowsOf(PurgeGroup(db, before).side, item) == Expire(RowsOf(db.side, item), before)
  {
    hide KeptPosts, KeptComments, CutLoose, KeepSources, KeptNotes, KeptRows, KeptJobs, KeptLinks, Stays, RowsOf;
    var side := PurgeGroup(db, before).side;
    forall v: nat
      ensures v in RowsOf(side, item) <==> v in RowsOf(db.side, item) && RowsOf(db.side, item)[v] >= before
    {
      RowIs(side, item, v);
      RowIs(db.side, item, v);
    }
    forall v | v in RowsOf(side, item) ensures RowsOf(side, item)[v] == RowsOf(db.side, item)[v] {
      RowIs(side, item, v);
      RowIs(db.side, item, v);
    }
  }

  /** An edit that is otherwise in order is refused exactly when the number of its version is taken. */
  lemma EditBlockedIff(db: Db, id: Id, title: string, body: string, at: int)
    requires ContentOk(db) && id in db.posts && !Gone(db.posts[id].status)
    requires title != "" && |title| <= MAX_TITLE && |body| <= MAX_BODY
    ensures EditPost(db, id, title, body, at).None? <==>
            |RowsOf(db.side, Item(APost, id)).Keys| + 1 in RowsOf(db.side, Item(APost, id))
  {
    SaveIs(db, Item(APost, id), at);
    hide ContentOk, PostEdited, Revisions, RowsOf;
    if SaveRevision(db, Item(APost, id), at).Some? {
      var saved := SaveRevision(db, Item(APost, id), at).value;
      RetitledOk(db, saved, id, title, body);
      PostEditedOk(Retitled(saved, id, title, body), id, at);
    }
  }

  /** So is an edit of a comment. */
  lemma CommentEditBlockedIff(db: Db, id: Id, body: string, at: int)
    requires ContentOk(db) && id in db.comments && !Gone(db.comments[id].status) && body != "" && |body| <= MAX_COMMENT
    ensures EditComment(db, id, body, at).None? <==>
            |RowsOf(db.side, Item(AComment, id)).Keys| + 1 in RowsOf(db.side, Item(AComment, id))
  {
    SaveIs(db, Item(AComment, id), at);
    ItemFacts(db, Item(AComment, id));
    hide ContentOk, ThreadChanged, Revisions, RowsOf;
    if SaveRevision(db, Item(AComment, id), at).Some? {
      CanBeTold(Rewritten(SaveRevision(db, Item(AComment, id), at).value, id, body, at), db.comments[id].post, at);
    }
  }

  lemma CanBeTold(db: Db, p: Id, at: int)
    requires UpdatesOneDeep(db.posts) && p in db.posts
    ensures ThreadChanged(db, p, at).Some?
  {
    assert UpdateFine(db.posts, p);
  }

  lemma RetitledOk(db: Db, saved: Db, id: Id, title: string, body: string)
    requires ContentOk(db) && id in db.posts && saved == db.(side := saved.side)
    ensures ContentOk(Retitled(saved, id, title, body))
  {
    hide ContentOk;
    PostRowFine(db, id);
    PutPostOk(db, Retitled(saved, id, title, body), id, db.posts[id].(title := title, body := body));
  }

  // ---- Histories of edits and purges ----

  datatype Event = Edit(at: int) | Purge(before: int)

  function Next(rows: Rows, e: Event): Rows {
    match e
    case Edit(at) => if Saved(rows, at).Some? then Saved(rows, at).value else rows
    case Purge(before) => Expire(rows, before)
  }

  function After(rows: Rows, events: seq<Event>): Rows
    decreases |events|
  {
    if events == [] then rows else After(Next(rows, events[0]), events[1..])
  }

  function Edits(events: seq<Event>): nat {
    if events == [] then 0 else (if events[0].Edit? then 1 else 0) + Edits(events[1..])
  }

  /** How many of the edits go through. */
  function Through(rows: Rows, events: seq<Event>): nat
    decreases |events|
  {
    if events == [] then 0 else
      (if events[0].Edit? && Saved(rows, events[0].at).Some? then 1 else 0) + Through(Next(rows, events[0]), events[1..])
  }

  /** No purge on the way takes a version of this item. */
  predicate NothingExpires(rows: Rows, events: seq<Event>)
    decreases |events|
  {
    events == [] || ((events[0].Purge? ==> Expire(rows, events[0].before) == rows) &&
     NothingExpires(Next(rows, events[0]), events[1..]))
  }

  predicate Positive(rows: Rows) { forall v <- rows :: v > 0 }

  /** Versions 1 up to the number stored, and no others. */
  ghost predicate Whole(rows: Rows) { forall v: nat :: v in rows <==> 1 <= v <= |rows.Keys| }

  /** x is the first number above the count that is taken. */
  ghost predicate InTheWay(rows: Rows, x: nat) {
    x in rows && |rows.Keys| < x && forall y <- rows :: y < x ==> y <= |rows.Keys|
  }

  /** Main result: with something in the way, exactly the edits that fit below it go through, and
      every edit after them fails, for as long as nothing expires. */
  lemma {:induction false} EditsThatFit(rows: Rows, events: seq<Event>, x: nat)
    requires InTheWay(rows, x) && NothingExpires(rows, events)
    ensures Through(rows, events) == if Edits(events) <= x - |rows.Keys| - 1 then Edits(events) else x - |rows.Keys| - 1
    decreases |events|
  {
    if events != [] {
      var next := Next(rows, events[0]);
      if events[0].Edit? && Saved(rows, events[0].at).Some? {
        SavedKeys(rows, events[0].at);
      }
      EditsThatFit(next, events[1..], x);
    }
  }

  lemma SavedKeys(rows: Rows, at: int)
    requires Saved(rows, at).Some?
    ensures Saved(rows, at).value.Keys == rows.Keys + {|rows.Keys| + 1} &&
            |Saved(rows, at).value.Keys| == |rows.Keys| + 1
  {
  }

  /** With nothing in the way, every edit goes through. */
  lemma {:induction false} AllEditsFit(rows: Rows, events: seq<Event>)
    requires Positive(rows) && (forall v <- rows :: v <= |rows.Keys|) && NothingExpires(rows, events)
    ensures Through(rows, events) == Edits(events)
    decreases |events|
  {
    if events != [] {
      if events[0].Edit? { SavedKeys(rows, events[0].at); }
      AllEditsFit(Next(rows, events[0]), events[1..]);
    }
  }

  /** The numbers after k up to n. */
  function Interval(k: nat, n: nat): (s: set<nat>)
    ensures forall i :: i in s <==> k < i <= n
    ensures k <= n ==> |s| == n - k
  {
    if k < n then Interval(k, n - 1) + {n} else {}
  }

  /** Nothing is in the way exactly when the numbers are whole. */
  lemma WholeIff(rows: Rows)
    requires Positive(rows)
    ensures Whole(rows) <==> forall x: nat :: !InTheWay(rows, x)
  {
    var n := |rows.Keys|;
    if forall v <- rows :: v <= n {
      assert rows.Keys <= Interval(0, n);
      SameSize(rows.Keys, Interval(0, n));
    } else {
      var x := FirstAbove(rows, n);
      assert InTheWay(rows, x) && x in rows && x > n;
    }
  }

  lemma SameSize(a: set<nat>, b: set<nat>)
    requires a <= b && |a| == |b|
    ensures a == b
  {
    SubsetSize(a, b);
    if x :| x in b && x !in a { SubsetSize(a, b - {x}); }
  }

  lemma FirstAbove(rows: Rows, n: nat) returns (x: nat)
    requires exists v <- rows :: v > n
    ensures x in rows && n < x && forall y <- rows :: y < x ==> y <= n
  {
    x :| x in rows && x > n;
    while exists y <- rows :: n < y < x
      invariant x in rows && n < x
      decreases x
    {
      var y :| y in rows && n < y < x;
      x := y;
    }
  }

  // ---- From the first version on ----

  /** Whole rows, later versions expiring later: what edits alone make. */
  ghost predicate Ordered(rows: Rows) {
    Whole(rows) && forall v, w | v in rows && w in rows && v <= w :: rows[v] <= rows[w]
  }

  /** Edits one after another, at times that do not go back. */
  predicate InOrder(events: seq<Event>, since: int) {
    events == [] || (events[0].Edit? && since <= events[0].at && InOrder(events[1..], events[0].at))
  }

  lemma {:induction false} EditsAreOrdered(rows: Rows, events: seq<Event>, since: int)
    requires Ordered(rows) && (forall v <- rows :: rows[v] <= since + REVISION_KEEP) && InOrder(events, since)
    ensures Ordered(After(rows, events)) && |After(rows, events).Keys| == |rows.Keys| + |events|
    decreases |events|
  {
    if events != [] {
      SavedOrdered(rows, events[0].at, since);
      SavedKeys(rows, events[0].at);
      hide Ordered, Saved;
      EditsAreOrdered(Next(rows, events[0]), events[1..], events[0].at);
    }
  }

  /** A version that is saved last expires last. */
  lemma SavedOrdered(rows: Rows, at: int, since: int)
    requires Ordered(rows) && since <= at && forall v <- rows :: rows[v] <= since + REVISION_KEEP
    ensures Saved(rows, at).Some? && Ordered(Saved(rows, at).value)
    ensures forall v <- Saved(rows, at).value :: Saved(rows, at).value[v] <= at + REVISION_KEEP
  {
    SavedKeys(rows, at);
  }

  /** The first purge takes the oldest versions. */
  lemma OldestGo(rows: Rows, before: int) returns (k: nat)
    requires Ordered(rows)
    ensures k <= |rows.Keys| && Expire(rows, before).Keys == Interval(k, |rows.Keys|)
  {
    k := 0;
    while k < |rows.Keys| && rows[k + 1] < before
      invariant k <= |rows.Keys|
      invariant forall v | 1 <= v <= k :: rows[v] < before
    {
      k := k + 1;
    }
  }

  /** What is in the way once the oldest k of n are gone. */
  lemma WhatIsInTheWay(rows: Rows, k: nat, n: nat)
    requires rows.Keys == Interval(k, n) && 1 <= k < n
    ensures 2 * k <= n ==> InTheWay(rows, n - k + 1)
    ensures 2 * k > n ==> InTheWay(rows, k + 1)
  {
  }

  /** Main result. An item edited n times, at times that do not go back; a first purge, which takes
      the oldest k; and any further edits, before more of its versions expire. If the purge took
      none or all, every edit goes through. Otherwise exactly the first 2k - n do (none, if that is
      negative), and the rest fail. */
  lemma EditsAfterFirstPurge(edits: seq<Event>, since: int, before: int, more: seq<Event>) returns (k: nat)
    requires InOrder(edits, since)
    requires NothingExpires(Expire(After(map[], edits), before), more)
    ensures k <= |edits| && Expire(After(map[], edits), before).Keys == Interval(k, |edits|)
    ensures var through, fit := Through(Expire(After(map[], edits), before), more), 2 * k - |edits|;
            through == if k == 0 || k == |edits| || Edits(more) <= fit then Edits(more) else if fit < 0 then 0 else fit
  {
    var n := |edits|;
    EditsAreOrdered(map[], edits, since);
    var rows := After(map[], edits);
    k := OldestGo(rows, before);
    var left := Expire(rows, before);
    if k == 0 || k == n {
      AllEditsFit(left, more);
    } else {
      WhatIsInTheWay(left, k, n);
      EditsThatFit(left, more, if 2 * k <= n then n - k + 1 else k + 1);
    }
  }

  /** A history in which every purge takes all of the item's versions, or none. */
  predicate AllOrNone(rows: Rows, events: seq<Event>)
    decreases |events|
  {
    events == [] ||
    ((events[0].Purge? ==> Expire(rows, events[0].before) == rows || Expire(rows, events[0].before) == map[]) &&
     AllOrNone(Next(rows, events[0]), events[1..]))
  }

  /** Only a purge that takes some versions and leaves others can make an edit fail. */
  lemma {:induction false} OnlyPartPurgesBlock(rows: Rows, events: seq<Event>)
    requires Whole(rows) && AllOrNone(rows, events)
    ensures Through(rows, events) == Edits(events) && Whole(After(rows, events))
    decreases |events|
  {
    if events != [] {
      if events[0].Edit? { SavedKeys(rows, events[0].at); }
      OnlyPartPurgesBlock(Next(rows, events[0]), events[1..]);
    }
  }

  /** Numbers do not stay in the order in which they expire. From {4, 5} an edit stores number 3,
      which expires last; once 4 has expired the next edit would be number 3 again. */
  lemma GapsComeBack(a: int, b: int, at: int, later: int)
    requires a < b <= at < later && a + REVISION_KEEP < later <= b + REVISION_KEEP
    ensures var rows := After(map[4 := a + REVISION_KEEP, 5 := b + REVISION_KEEP], [Edit(at), Purge(later)]);
            rows.Keys == {3, 5} && Saved(rows, later).None?
  {
    var rows: Rows := map[4 := a + REVISION_KEEP, 5 := b + REVISION_KEEP];
    assert rows.Keys == {4, 5};
    var one := Next(rows, Edit(at));
    assert one == rows[3 := at + REVISION_KEEP];
    assert [Edit(at), Purge(later)][1..] == [Purge(later)];
    assert After(one, [Purge(later)]) == Expire(one, later);
    assert Expire(one, later).Keys == {3, 5};
  }
}
