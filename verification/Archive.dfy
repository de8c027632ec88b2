/**
 Imported archive threads: an import is an upsert by the original's reference, and a removal
 request takes a thread down at once (internal/cmd/archive.go, internal/cmd/sources.go).
 */
module Archive {
  import opened Types
  import opened Jobs
  import opened Tables
  import opened Commands
  import opened Content

  /** Every counter but one post's is right: that one is recounted at the end of the import. */
  ghost predicate CountsRightExcept(posts: Posts, comments: Comments, pid: Id) {
    forall p <- posts :: p != pid ==> posts[p].commentCount == |ShownComments(comments, p)|
  }

  /** The invariant in the middle of an import. */
  ghost predicate Importing(db: Db, pid: Id) {
    && pid in db.posts
    && CommentsHavePosts(db.posts, db.comments)
    && CountsRightExcept(db.posts, db.comments, pid)
    && PostsFine(db.posts) && CommentsFine(db.comments)
    && IndexSound(db.posts, db.comments, db.fts)
    && UpdatesOneDeep(db.posts)
    && PostRefsRight(db.posts, db.postRefs)
    && CommentRefsRight(db.comments, db.commentRefs)
    && 0 !in db.posts && db.posts.Keys !! db.comments.Keys
  }

  lemma RecountOk(db: Db, pid: Id)
    requires Importing(db, pid)
    ensures ContentOk(Recount(db, pid))
  {
    var n := |ShownComments(db.comments, pid)|;
    CountRows(db.posts, db.postRefs, pid, n);
    IndexIgnoresCounts(db.posts, Recount(db, pid).posts, db.comments, db.fts);
  }

  lemma NewRowOk(db: Db, db': Db, id: Id, p: Post)
    requires ContentOk(db) && FreshId(db, id) && PostFine(p) && Shown(p.status)
    requires p.commentCount == 0 && p.continues.None? && p.originRef.Some? && p.originRef.value !in db.postRefs
    requires db'.posts == db.posts[id := p] && db'.postRefs == db.postRefs[p.originRef.value := id]
    requires db'.comments == db.comments && db'.commentRefs == db.commentRefs && db'.fts == db.fts[id := id]
    ensures Importing(db', id)
  {
    InsertPostRows(db.posts, db.comments, id, p);
    InsertPostRefs(db.posts, db.postRefs, id, p);
    PutPostIndex(db.posts, db.comments, db.fts, id, p);
  }

  lemma OldRowOk(db: Db, db': Db, id: Id, p: Post)
    requires ContentOk(db) && id in db.posts && Shown(p.status) && PostFine(p) && SameLinks(p, db.posts[id])
    requires db'.posts == db.posts[id := p] && db'.comments == db.comments
    requires db'.postRefs == db.postRefs && db'.commentRefs == db.commentRefs && db'.fts == db.fts[id := id]
    ensures Importing(db', id)
  {
    hide PostFine;
    PutPostOk(db, db', id, p);
  }

  lemma ImportRowOk(db: Db, id: Id, ref: string, title: string, body: string, images: seq<Id>)
    requires ContentOk(db) && (ref !in db.postRefs ==> FreshId(db, id)) &&
             ImportRow(db, id, ref, title, body, images).Some?
    requires ref in db.postRefs && db.postRefs[ref] in db.posts ==> Shown(db.posts[db.postRefs[ref]].status)
    ensures Importing(ImportRow(db, id, ref, title, body, images).value,
                      if ref in db.postRefs then db.postRefs[ref] else id)
  {
    var db' := ImportRow(db, id, ref, title, body, images).value;
    if ref in db.postRefs {
      var pid := db.postRefs[ref];
      assert PostRefFine(db.posts, db.postRefs, ref);
      PostRowFine(db, pid);
      PostRefKept(db, ref);
      OldRowOk(db, db', pid, db.posts[pid].(title := title, body := body));
    } else {
      NewRowOk(db, db', id, db'.posts[id]);
    }
  }

  lemma PostRefKept(db: Db, ref: string)
    requires ref in db.postRefs
    ensures db.postRefs[ref := db.postRefs[ref]] == db.postRefs
  {
  }

  lemma NewCommentOk(db: Db, db': Db, pid: Id, id: Id, c: Comment)
    requires Importing(db, pid) && FreshId(db, id) && c.post == pid && CommentFine(c) && Shown(c.status)
    requires c.originRef.Some? && c.originRef.value !in db.commentRefs
    requires db'.comments == db.comments[id := c] && db'.commentRefs == db.commentRefs[c.originRef.value := id]
    requires db'.posts == db.posts && db'.postRefs == db.postRefs && db'.fts == db.fts[id := pid]
    ensures Importing(db', pid)
  {
    PutCommentIndex(db.posts, db.comments, db.fts, id, c);
    InsertCommentRefs(db.comments, db.commentRefs, id, c);
    forall p <- db'.posts ensures p != pid ==> db'.posts[p].commentCount == |ShownComments(db'.comments, p)| {
      ShownAfter(db.comments, id, c, p);
    }
  }

  lemma OldCommentOk(db: Db, db': Db, pid: Id, id: Id, c: Comment)
    requires Importing(db, pid) && id in db.comments && Shown(c.status) && CommentFine(c)
    requires c.post == db.comments[id].post && c.originRef == db.comments[id].originRef &&
             c.status == db.comments[id].status
    requires db'.comments == db.comments[id := c] && db'.commentRefs == db.commentRefs
    requires db'.posts == db.posts && db'.postRefs == db.postRefs && db'.fts == db.fts[id := pid]
    ensures Importing(db', pid)
  {
    PutCommentRows(db.comments, db.commentRefs, id, c);
    forall i <- db'.fts ensures RowRight(db'.posts, db'.comments, i, db'.fts[i]) {
      assert i != id ==> RowRight(db.posts, db.comments, i, db.fts[i]);
    }
    forall p <- db'.posts ensures p != pid ==> db'.posts[p].commentCount == |ShownComments(db'.comments, p)| {
      ShownAfter(db.comments, id, c, p);
    }
  }

  lemma ImportCommentOk(im: Import, pid: Id, cm: ArchiveComment)
    requires Importing(im.db, pid) && ImportComment(im, pid, cm).Some?
    requires cm.ref !in im.db.commentRefs ==> FreshId(im.db, cm.id)
    ensures Importing(ImportComment(im, pid, cm).value.db, pid)
  {
    var db, db' := im.db, ImportComment(im, pid, cm).value.db;
    if cm.ref !in db.commentRefs {
      NewCommentOk(db, db', pid, cm.id, db'.comments[cm.id]);
    } else {
      var id := db.commentRefs[cm.ref];
      assert CommentRefFine(db.comments, db.commentRefs, cm.ref);
      if Shown(db.comments[id].status) {
        assert CommentFine(db.comments[id]);
        OldCommentOk(db, db', pid, id, db'.comments[id]);
      }
    }
  }

  /** The ids an import brings for new comments are unused. */
  ghost predicate FreshImport(db: Db, pid: Id, cms: seq<ArchiveComment>) {
    forall cm <- cms :: cm.ref !in db.commentRefs ==> FreshId(db, cm.id) && cm.id != pid
  }

  /** What an import adds so far. */
  ghost predicate Grown(db0: Db, pid: Id, db: Db) {
    && db.posts.Keys == db0.posts.Keys + {pid}
    && db0.commentRefs.Keys <= db.commentRefs.Keys
    && db.fts.Keys <= db0.fts.Keys + {pid} + db.comments.Keys
  }

  lemma ImportCommentGrows(db0: Db, im: Import, pid: Id, cm: ArchiveComment)
    requires Grown(db0, pid, im.db) && ImportComment(im, pid, cm).Some?
    ensures Grown(db0, pid, ImportComment(im, pid, cm).value.db)
    ensures FreshId(db0, cm.id) && cm.id != pid && cm.ref !in im.db.commentRefs ==> FreshId(im.db, cm.id)
  {
  }

  lemma {:induction false} ImportCommentsOk(db0: Db, im: Import, pid: Id, cms: seq<ArchiveComment>)
    requires Importing(im.db, pid) && ImportComments(im, pid, cms).Some?
    requires FreshImport(db0, pid, cms) && Grown(db0, pid, im.db)
    ensures Importing(ImportComments(im, pid, cms).value.db, pid) &&
            Grown(db0, pid, ImportComments(im, pid, cms).value.db)
    decreases |cms|
  {
    hide Importing, ImportComment, FreshId;
    if cms != [] {
      var init, cm := cms[..|cms| - 1], cms[|cms| - 1];
      ImportCommentsOk(db0, im, pid, init);
      var before := ImportComments(im, pid, init).value;
      assert cm in cms;
      ImportCommentGrows(db0, before, pid, cm);
      ImportCommentOk(before, pid, cm);
    }
  }

  /** An import keeps every counter, index row and reference right, whatever it brings. */
  lemma ImportPostOk(db: Db, id: Id, ref: string, title: string, body: string, images: seq<Id>,
                     cms: seq<ArchiveComment>, at: int)
    requires ContentOk(db) && ImportPost(db, id, ref, title, body, images, cms, at).Some?
    requires ref !in db.postRefs ==> FreshId(db, id)
    requires FreshImport(db, if ref in db.postRefs then db.postRefs[ref] else id, cms)
    ensures ContentOk(ImportPost(db, id, ref, title, body, images, cms, at).value)
  {
    hide ContentOk, Importing, ImportRow, ImportComments, PostEdited, ThreadChanged, SameContent, FreshImport, FreshId,
      Grown;
    var pid := if ref in db.postRefs then db.postRefs[ref] else id;
    if !(ref in db.postRefs && pid in db.posts && !Shown(db.posts[pid].status)) {
      ImportRowOk(db, id, ref, title, body, images);
      ImportRowGrows(db, id, ref, title, body, images);
      var row := ImportRow(db, id, ref, title, body, images).value;
      ImportCommentsOk(db, Import(row, map[], false), pid, cms);
      var im := ImportComments(Import(row, map[], false), pid, cms).value;
      RecountOk(im.db, pid);
      var counted := Recount(im.db, pid);
      ThreadChangedOk(counted, pid, at);
      PostEditedOk(counted, pid, at);
      if ref !in db.postRefs {
        JobsDoNotMatter(counted, ImportPost(db, id, ref, title, body, images, cms, at).value);
      }
    }
  }

  lemma ImportRowGrows(db: Db, id: Id, ref: string, title: string, body: string, images: seq<Id>)
    requires ImportRow(db, id, ref, title, body, images).Some?
    ensures Grown(db, if ref in db.postRefs then db.postRefs[ref] else id,
                  ImportRow(db, id, ref, title, body, images).value)
  {
  }

  lemma PostEditedOk(db: Db, p: Id, at: int)
    requires ContentOk(db) && p in db.posts
    ensures PostEdited(db, p, at).Some? && ContentOk(PostEdited(db, p, at).value)
  {
    hide ContentOk, PostEdited, SameContent;
    ItemFacts(db, Item(APost, p));
    PostRowFine(db, p);
    PostEditedSame(db, p, at);
    PutPostOk(db, BumpVersion(db, p), p, BumpVersion(db, p).posts[p]);
    SameContentOk(BumpVersion(db, p), PostEdited(db, p, at).value);
  }

  // ---- Removal requests ----

  lemma RemovedRowOk(db: Db, db': Db, id: Id, p: Post)
    requires ContentOk(db) && id in db.posts && PostFine(p) && SameLinks(p, db.posts[id])
    requires db'.posts == db.posts[id := p] && db'.comments == db.comments
    requires db'.postRefs == db.postRefs && db'.commentRefs == db.commentRefs
    requires db'.fts.Keys <= db.fts.Keys - {id} && forall i <- db'.fts :: db'.fts[i] == db.fts[i]
    ensures ContentOk(db')
  {
    PutPostRows(db.posts, db.comments, db.postRefs, id, p);
    forall i <- db'.fts ensures RowRight(db'.posts, db'.comments, i, db'.fts[i]) {
      assert RowRight(db.posts, db.comments, i, db.fts[i]);
    }
  }

  /** A post's row and its thread's index rows taken down. */
  function TakenDown(db: Db, id: Id, at: int): Db
    requires id in db.posts
  {
    db.(posts := db.posts[id := db.posts[id].(status := Removed, purgeAfter := Some(at + MOD_REMOVE_KEEP))],
        fts := map i | i in db.fts && db.fts[i] != id :: db.fts[i])
  }

  lemma TakenDownOk(db: Db, id: Id, at: int)
    requires ContentOk(db) && id in db.posts
    ensures ContentOk(TakenDown(db, id, at))
  {
    if id in db.fts { assert RowRight(db.posts, db.comments, id, db.fts[id]); }
    PostRowFine(db, id);
    hide ContentOk;
    RemovedRowOk(db, TakenDown(db, id, at), id, TakenDown(db, id, at).posts[id]);
  }

  lemma RequestArchiveRemovalOk(db: Db, id: Id, at: int)
    requires ContentOk(db) && RequestArchiveRemoval(db, id, at).Some?
    ensures ContentOk(RequestArchiveRemoval(db, id, at).value)
  {
    hide ContentOk, ThreadChanged, SameContent;
    if !Gone(db.posts[id].status) {
      TakenDownOk(db, id, at);
      ThreadChangedOk(TakenDown(db, id, at), id, at);
    }
  }
}
