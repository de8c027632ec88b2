/** Deleting and restoring (internal/cmd/posts.go): what Restore brings back, and what it does not. */
module Undo {
  import opened Types
  import opened Jobs
  import opened Tables
  import opened Commands
  import opened Content
  import opened Index

  lemma SameContentThen(a: Db, b: Db, c: Db)
    requires SameContent(a, b) && SameContent(b, c)
    ensures SameContent(a, c)
  {
  }

  /** The same status change on both sides. */
  lemma RestatusPostBoth(a: Db, b: Db, id: Id, to: Status, purge: Option<int>)
    requires SameContent(a, b) && id in a.posts
    ensures id in b.posts && SameContent(Restatus(a, Item(APost, id), to, purge), Restatus(b, Item(APost, id), to, purge))
  {
  }

  lemma RestatusCommentBoth(a: Db, b: Db, id: Id, to: Status, purge: Option<int>)
    requires SameContent(a, b) && id in a.comments && a.comments[id].post in a.posts
    ensures id in b.comments && b.comments[id].post in b.posts
    ensures SameContent(Restatus(a, Item(AComment, id), to, purge), Restatus(b, Item(AComment, id), to, purge))
  {
  }

  lemma RestatusBoth(a: Db, b: Db, item: Item, to: Status, purge: Option<int>)
    requires SameContent(a, b) && Exists(a, item) && ThreadOf(a, item) in a.posts
    ensures Exists(b, item) && ThreadOf(b, item) in b.posts &&
            SameContent(Restatus(a, item, to, purge), Restatus(b, item, to, purge))
  {
    hide SameContent, Restatus;
    if item.kind == APost {
      assert item == Item(APost, item.id);
      RestatusPostBoth(a, b, item.id, to, purge);
    } else {
      assert item == Item(AComment, item.id);
      RestatusCommentBoth(a, b, item.id, to, purge);
    }
  }

  lemma PutBack<K, V>(m: map<K, V>, k: K, v: V)
    requires k in m
    ensures m[k := v][k := m[k]] == m && (m - {k})[k := m[k]] == m
  {
  }

  /** Hidden and shown again: a row that was visible is back as it was. */
  lemma ThereAndBackPost(db: Db, id: Id, hidden: Status, purge: Option<int>)
    requires id in db.posts && db.posts[id].status == Visible && db.posts[id].purgeAfter.None? && !Shown(hidden)
    requires id in db.fts && db.fts[id] == id
    ensures var away := Restatus(db, Item(APost, id), hidden, purge);
            id in away.posts && SameContent(db, Restatus(away, Item(APost, id), Visible, None))
  {
  }

  lemma ThereAndBackComment(db: Db, id: Id, hidden: Status, purge: Option<int>)
    requires id in db.comments && db.comments[id].post in db.posts
    requires db.comments[id].status == Visible && db.comments[id].purgeAfter.None? && !Shown(hidden)
    requires id in db.fts && db.fts[id] == db.comments[id].post
    ensures var away := Restatus(db, Item(AComment, id), hidden, purge);
            id in away.comments && away.comments[id].post in away.posts &&
            SameContent(db, Restatus(away, Item(AComment, id), Visible, None))
  {
    var c, post := db.comments[id].(status := hidden, purgeAfter := purge), db.comments[id].post;
    var away := Restatus(db, Item(AComment, id), hidden, purge);
    var p := db.posts[post].(commentCount := db.posts[post].commentCount - 1);
    RestatusCommentTables(db, id, hidden, purge);
    RestatusCommentTables(away, id, Visible, None);
    hide SameContent, Restatus;
    assert c.(status := Visible, purgeAfter := None) == db.comments[id];
    assert p.(commentCount := p.commentCount + 1) == db.posts[post];
    PutBack(db.comments, id, c);
    PutBack(db.posts, post, p);
    PutBack(db.fts, id, post);
    TablesSame(db, Restatus(away, Item(AComment, id), Visible, None));
  }

  lemma RestatusCommentTables(db: Db, id: Id, to: Status, purge: Option<int>)
    requires id in db.comments && db.comments[id].post in db.posts
    ensures var put, post := Restatus(db, Item(AComment, id), to, purge), db.comments[id].post;
            var n := db.posts[post].commentCount + (One(Shown(to)) - One(Shown(db.comments[id].status)));
            put.comments == db.comments[id := db.comments[id].(status := to, purgeAfter := purge)] &&
            put.posts == db.posts[post := db.posts[post].(commentCount := n)] &&
            put.fts == (if Shown(to) then db.fts[id := post] else db.fts - {id}) &&
            put.postRefs == db.postRefs && put.commentRefs == db.commentRefs
  {
  }

  /** The index row of a visible item, if it has one. */
  lemma VisibleRow(db: Db, item: Item)
    requires ContentOk(db) && IndexedDb(db, false) && Exists(db, item) && StatusOf(db, item) == Visible &&
             item.id in db.fts
    ensures db.fts[item.id] == ThreadOf(db, item) && PurgeOf(db, item).None?
  {
    if item.kind == APost {
      assert PostFine(db.posts[item.id]) && RowRight(db.posts, db.comments, item.id, db.fts[item.id]);
    } else {
      assert CommentIndexed(db.comments, db.fts, item.id, false) && CommentFine(db.comments[item.id]);
    }
  }

  lemma ThereAndBack(db: Db, item: Item, hidden: Status, purge: Option<int>)
    requires ContentOk(db) && IndexedDb(db, false) && Exists(db, item) && StatusOf(db, item) == Visible &&
             !Shown(hidden) && item.id in db.fts
    ensures ThreadOf(db, item) in db.posts
    ensures var away := Restatus(db, item, hidden, purge);
            Exists(away, item) && ThreadOf(away, item) in away.posts &&
            SameContent(db, Restatus(away, item, Visible, None))
  {
    hide ContentOk, IndexedDb, SameContent, Restatus;
    ItemFacts(db, item);
    VisibleRow(db, item);
    if item.kind == APost {
      assert item == Item(APost, item.id);
      ThereAndBackPost(db, item.id, hidden, purge);
    } else {
      assert item == Item(AComment, item.id);
      ThereAndBackComment(db, item.id, hidden, purge);
    }
  }

  /** SoftDelete and Restore are the two halves of it, apart from thread versions. */
  lemma DeletedThenRestored(db: Db, item: Item, byMod: bool, at: int, later: int)
    requires ContentOk(db) && Exists(db, item) && !Gone(StatusOf(db, item))
    ensures SoftDelete(db, item, byMod, at).Some? && ThreadOf(db, item) in db.posts
    ensures var hidden, keep := if byMod then Removed else Deleted, if byMod then MOD_REMOVE_KEEP else AUTHOR_DELETE_KEEP;
            var gone, away := SoftDelete(db, item, byMod, at).value, Restatus(db, item, hidden, Some(at + keep));
            Restore(gone, item, later).Some? && Exists(away, item) && ThreadOf(away, item) in away.posts &&
            SameContent(Restatus(away, item, Visible, None), Restore(gone, item, later).value)
  {
    hide ContentOk, ThreadChanged, SameContent, Restatus, Afterwards, Restore, UpdatesOneDeep;
    var hidden, keep := if byMod then Removed else Deleted, if byMod then MOD_REMOVE_KEEP else AUTHOR_DELETE_KEEP;
    ItemFacts(db, item);
    SoftDeleteOk(db, item, byMod, at);
    SoftDeleteIs(db, item, byMod, at);
    hide SoftDelete;
    var gone, away := SoftDelete(db, item, byMod, at).value, Restatus(db, item, hidden, Some(at + keep));
    AfterwardsSame(db, item, hidden, Some(at + keep), at);
    RestoredIs(gone, item, later);
    SameContentBack(away, gone);
    RestatusBoth(gone, away, item, Visible, None);
    SameContentBack(Restatus(gone, item, Visible, None), Restatus(away, item, Visible, None));
    SameContentThen(Restatus(away, item, Visible, None), Restatus(gone, item, Visible, None),
                    Restore(gone, item, later).value);
  }

  lemma RestoredIs(db: Db, item: Item, at: int)
    requires ContentOk(db) && Exists(db, item) && Gone(StatusOf(db, item))
    ensures ThreadOf(db, item) in db.posts && Restore(db, item, at).Some?
    ensures SameContent(Restatus(db, item, Visible, None), Restore(db, item, at).value)
  {
    ItemFacts(db, item);
    hide ContentOk, ThreadChanged, SameContent, Restatus;
    assert Restore(db, item, at) == Afterwards(db, item, Visible, None, at);
    hide Afterwards, Restore;
    AfterwardsSame(db, item, Visible, None, at);
  }

  /** Whatever the index held, it lists a restored item. */
  lemma RestoredIsListed(db: Db, away: Db, item: Item, r: Db)
    requires Exists(away, item) && ThreadOf(away, item) in away.posts &&
             SameContent(Restatus(away, item, Visible, None), r)
    ensures item.id in r.fts
  {
    hide Restatus, SameContent;
    ShownIsListed(away, item);
    SameIndex(Restatus(away, item, Visible, None), r);
  }

  lemma ShownIsListed(db: Db, item: Item)
    requires Exists(db, item) && ThreadOf(db, item) in db.posts
    ensures item.id in Restatus(db, item, Visible, None).fts
  {
    if item.kind == APost {
    } else {
    }
  }

  /** Main result. "Restore undoes a SoftDelete": the posts, comments, counters and index are as
      before exactly when the item was visible and the index listed it. Whatever it was otherwise,
      flagged, hidden by the members or still held for a mod, it comes back visible; and a visible
      comment that a removal request had taken out of the index comes back into it. */
  lemma RestoreUndoesDeleteIff(db: Db, item: Item, byMod: bool, at: int, later: int)
    requires ContentOk(db) && IndexedDb(db, false) && Exists(db, item) && !Gone(StatusOf(db, item))
    ensures SoftDelete(db, item, byMod, at).Some?
    ensures var r := Restore(SoftDelete(db, item, byMod, at).value, item, later);
            r.Some? && Exists(r.value, item) && StatusOf(r.value, item) == Visible &&
            (SameContent(db, r.value) <==> StatusOf(db, item) == Visible && item.id in db.fts)
  {
    hide ContentOk, IndexedDb, SameContent, Restatus, SoftDelete, Restore;
    DeletedThenRestored(db, item, byMod, at, later);
    SoftDeleteOk(db, item, byMod, at);
    RestoreOk(SoftDelete(db, item, byMod, at).value, item, later);
    var hidden, keep := if byMod then Removed else Deleted, if byMod then MOD_REMOVE_KEEP else AUTHOR_DELETE_KEEP;
    var away, r := Restatus(db, item, hidden, Some(at + keep)),
                   Restore(SoftDelete(db, item, byMod, at).value, item, later).value;
    if StatusOf(db, item) == Visible && item.id in db.fts {
      ThereAndBack(db, item, hidden, Some(at + keep));
      SameContentThen(db, Restatus(away, item, Visible, None), r);
    } else if SameContent(db, r) {
      RestoredIsListed(db, away, item, r);
      SameIndex(db, r);
      SameContentReads(db, r, item, StatusOf(db, item), Cleared(db, item));
    }
  }

  lemma SameIndex(a: Db, b: Db)
    requires SameContent(a, b)
    ensures a.fts == b.fts
  {
  }
}
