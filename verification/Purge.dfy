/**
 The daily purge of a group: what it removes, what it leaves whole, and that running it again,
 or late, makes no difference (internal/cmd/purge.go). No command sets a legal hold, so there
 are none here.
 */
module Purge {
  import opened Types
  import opened Jobs
  import opened Tables
  import opened Commands
  import opened Content
  import opened Index

  // ---- What it removes ----

  /** Expired items were soft-deleted before: the purge takes nothing that is still shown, except
      for comments under a post that is itself gone. */
  lemma PurgeTakesOnlyTheGone(db: Db, before: int)
    requires ContentOk(db)
    ensures forall p <- db.posts :: p !in PurgeGroup(db, before).posts ==> Gone(db.posts[p].status)
    ensures forall c <- db.comments :: c !in PurgeGroup(db, before).comments ==>
              Gone(db.comments[c].status) || Gone(db.posts[db.comments[c].post].status)
  {
  }

  // ---- It keeps the invariant ----

  lemma KeptCounts(posts: Posts, comments: Comments, before: int)
    requires CountsRight(posts, comments) && CommentsFine(comments) && CommentsHavePosts(posts, comments)
    ensures CountsRight(CutLoose(KeptPosts(posts, before)), KeptComments(posts, comments, before))
    ensures CommentsHavePosts(CutLoose(KeptPosts(posts, before)), KeptComments(posts, comments, before))
  {
    var comments' := KeptComments(posts, comments, before);
    forall p <- KeptPosts(posts, before) ensures ShownComments(comments', p) == ShownComments(comments, p) {
      forall c | c in ShownComments(comments, p) ensures c in ShownComments(comments', p) {
        assert CommentFine(comments[c]);
      }
    }
  }

  lemma KeptRowsFine(posts: Posts, comments: Comments, before: int)
    requires PostsFine(posts) && CommentsFine(comments) && UpdatesOneDeep(posts)
    ensures var posts' := CutLoose(KeptPosts(posts, before));
            PostsFine(posts') && CommentsFine(KeptComments(posts, comments, before)) && UpdatesOneDeep(posts')
  {
    var posts' := CutLoose(KeptPosts(posts, before));
    forall p | p in posts' ensures UpdateFine(posts', p) && PostFine(posts'[p]) {
      assert UpdateFine(posts, p) && PostFine(posts[p]);
    }
  }

  lemma KeptPostRefs(posts: Posts, refs: map<string, Id>, before: int)
    requires PostRefsRight(posts, refs)
    ensures PostRefsRight(CutLoose(KeptPosts(posts, before)), KeptRows(refs, KeptPosts(posts, before).Keys))
  {
    var posts' := CutLoose(KeptPosts(posts, before));
    var refs' := KeptRows(refs, KeptPosts(posts, before).Keys);
    forall r | r in refs' ensures PostRefFine(posts', refs', r) {
      assert PostRefFine(posts, refs, r);
    }
    forall p | p in posts' ensures PostListed(posts', refs', p) {
      assert PostListed(posts, refs, p);
    }
  }

  lemma KeptCommentRefs(posts: Posts, comments: Comments, refs: map<string, Id>, before: int)
    requires CommentRefsRight(comments, refs)
    ensures var comments' := KeptComments(posts, comments, before);
            CommentRefsRight(comments', KeptRows(refs, comments'.Keys))
  {
    var comments' := KeptComments(posts, comments, before);
    var refs' := KeptRows(refs, comments'.Keys);
    forall r | r in refs' ensures CommentRefFine(comments', refs', r) {
      assert CommentRefFine(comments, refs, r);
    }
    forall c | c in comments' ensures CommentListed(comments', refs', c) {
      assert CommentListed(comments, refs, c);
    }
  }

  /** Rows go with their posts; this needs each comment's row to be filed under its own post. */
  lemma KeptIndexSound(posts: Posts, comments: Comments, fts: map<Id, Id>, before: int, full: bool)
    requires IndexSound(posts, comments, fts) && Indexed(posts, comments, fts, full)
    requires CommentsFine(comments) && 0 !in posts
    ensures IndexSound(CutLoose(KeptPosts(posts, before)), KeptComments(posts, comments, before),
                       KeptRows(fts, KeptPosts(posts, before).Keys))
  {
    var posts', comments' := CutLoose(KeptPosts(posts, before)), KeptComments(posts, comments, before);
    forall i <- KeptRows(fts, KeptPosts(posts, before).Keys) ensures RowRight(posts', comments', i, fts[i]) {
      assert RowRight(posts, comments, i, fts[i]);
      if i in comments { assert CommentIndexed(comments, fts, i, full) && CommentFine(comments[i]); }
    }
  }

  lemma KeptIndexed(posts: Posts, comments: Comments, fts: map<Id, Id>, before: int, full: bool)
    requires IndexSound(posts, comments, fts) && Indexed(posts, comments, fts, full) &&
             CommentsHavePosts(posts, comments)
    ensures Indexed(CutLoose(KeptPosts(posts, before)), KeptComments(posts, comments, before),
                    KeptRows(fts, KeptPosts(posts, before).Keys), full)
  {
    var posts', comments' := CutLoose(KeptPosts(posts, before)), KeptComments(posts, comments, before);
    var fts' := KeptRows(fts, KeptPosts(posts, before).Keys);
    forall p | p in posts' ensures PostIndexed(posts', fts', p, full) {
      assert PostIndexed(posts, fts, p, full);
      if p in fts { assert RowRight(posts, comments, p, fts[p]); }
    }
    forall c | c in comments' ensures CommentIndexed(comments', fts', c, full) {
      assert CommentIndexed(comments, fts, c, full);
    }
  }

  lemma PurgeGroupOk(db: Db, before: int, full: bool)
    requires ContentOk(db) && IndexedDb(db, full)
    ensures ContentOk(PurgeGroup(db, before)) && IndexedDb(PurgeGroup(db, before), full)
  {
    hide PurgeSide, KeepSources, CommentsFine, PostsFine, UpdatesOneDeep, CountsRight, CommentsHavePosts,
      IndexSound, Indexed, PostRefsRight, CommentRefsRight, KeptNotes, KeptJobs;
    KeptCounts(db.posts, db.comments, before);
    KeptRowsFine(db.posts, db.comments, before);
    KeptPostRefs(db.posts, db.postRefs, before);
    KeptCommentRefs(db.posts, db.comments, db.commentRefs, before);
    KeptIndexSound(db.posts, db.comments, db.fts, before, full);
    KeptIndexed(db.posts, db.comments, db.fts, before, full);
  }

  // ---- Late and repeated purges ----

  lemma {:induction false} SourcesTwice(sources: seq<NoteSource>, all: seq<NoteSource>, notes: map<Id, NoteRow>,
                                        posts: set<Id>, posts': set<Id>, group: Id)
    requires posts' <= posts && forall s <- KeepSources(sources, notes, posts, group) :: s in all
    ensures KeepSources(KeepSources(sources, notes, posts, group), KeptNotes(notes, all, posts), posts', group) ==
            KeepSources(sources, notes, posts', group)
  {
    if sources != [] {
      var s, rest := sources[0], sources[1..];
      if SourceStays(s, notes, posts, group) {
        var kept := KeepSources(rest, notes, posts, group);
        assert KeepSources(sources, notes, posts, group) == [s] + kept && ([s] + kept)[1..] == kept && s in [s] + kept;
        assert forall x <- kept :: x in [s] + kept;
      }
      SourcesTwice(rest, all, notes, posts, posts', group);
    }
  }

  lemma {:induction false} SourcesShrink(sources: seq<NoteSource>, notes: map<Id, NoteRow>, posts: set<Id>, group: Id)
    ensures forall s :: s in KeepSources(sources, notes, posts, group) <==>
            s in sources && SourceStays(s, notes, posts, group)
  {
    if sources != [] {
      SourcesShrink(sources[1..], notes, posts, group);
      assert sources == [sources[0]] + sources[1..];
    }
  }

  lemma NotesTwice(sources: seq<NoteSource>, notes: map<Id, NoteRow>, posts: set<Id>, posts': set<Id>, group: Id)
    requires posts' <= posts
    ensures KeptNotes(KeptNotes(notes, KeepSources(sources, notes, posts, group), posts),
                      KeepSources(sources, notes, posts', group), posts')
            == KeptNotes(notes, KeepSources(sources, notes, posts', group), posts')
  {
    SourcesShrink(sources, notes, posts, group);
    SourcesShrink(sources, notes, posts', group);
  }

  lemma KeptPostsTwice(posts: Posts, b: int, b': int)
    requires b <= b'
    ensures KeptPosts(CutLoose(KeptPosts(posts, b)), b').Keys == KeptPosts(posts, b').Keys
    ensures CutLoose(KeptPosts(CutLoose(KeptPosts(posts, b)), b')) == CutLoose(KeptPosts(posts, b'))
  {
  }

  lemma KeptCommentsTwice(posts: Posts, comments: Comments, b: int, b': int)
    requires b <= b'
    ensures KeptComments(CutLoose(KeptPosts(posts, b)), KeptComments(posts, comments, b), b') ==
            KeptComments(posts, comments, b')
  {
  }

  lemma ItemTablesTwice(side: Side, posts: set<Id>, comments: set<Id>, posts': set<Id>, comments': set<Id>, b: int,
                        b': int)
    requires b <= b' && posts' <= posts && comments' <= comments
    ensures KeptRevisions(KeptRevisions(side.revisions, posts, comments, b), posts', comments', b') ==
            KeptRevisions(side.revisions, posts', comments', b')
    ensures KeptImages(KeptImages(side.images, posts, comments), posts', comments') ==
            KeptImages(side.images, posts', comments')
    ensures KeptPairs(KeptPairs(side.reports, posts, comments), posts', comments') ==
            KeptPairs(side.reports, posts', comments')
    ensures KeptPairs(KeptPairs(side.votes, posts, comments), posts', comments') ==
            KeptPairs(side.votes, posts', comments')
    ensures KeptBallots(KeptBallots(side.flagVotes, posts, comments), posts', comments') ==
            KeptBallots(side.flagVotes, posts', comments')
    ensures KeptNotices(KeptNotices(side.notices, posts, b), posts', b') == KeptNotices(side.notices, posts', b')
  {
  }

  lemma SideTwice(side: Side, posts: set<Id>, comments: set<Id>, posts': set<Id>, comments': set<Id>, b: int, b': int)
    requires b <= b' && posts' <= posts && comments' <= comments
    ensures PurgeSide(PurgeSide(side, posts, comments, b), posts', comments', b') ==
            PurgeSide(side, posts', comments', b')
  {
    hide KeptRevisions, KeptImages, KeptPairs, KeptBallots, KeptNotices;
    ItemTablesTwice(side, posts, comments, posts', comments', b, b');
  }

  lemma RowsTwice<K>(rows: map<K, Id>, ids: set<Id>, ids': set<Id>)
    requires ids' <= ids
    ensures KeptRows(KeptRows(rows, ids), ids') == KeptRows(rows, ids')
  {
  }

  lemma JobsTwice(db: Db, posts: set<Id>, comments: set<Id>, notes: set<Id>, posts': set<Id>, comments': set<Id>,
                  notes': set<Id>)
    requires posts' <= posts && comments' <= comments && notes' <= notes
    ensures KeptJobs(KeptJobs(db.jobs, posts, comments, notes), posts', comments', notes') ==
            KeptJobs(db.jobs, posts', comments', notes')
    ensures KeptLinks(KeptLinks(db.links, posts), posts') == KeptLinks(db.links, posts')
  {
  }

  lemma KeptTwice(db: Db, b: int, b': int)
    requires b <= b'
    ensures var one := PurgeGroup(db, b);
            KeptComments(one.posts, one.comments, b') == KeptComments(db.posts, db.comments, b') &&
            KeptPosts(one.posts, b').Keys == KeptPosts(db.posts, b').Keys &&
            CutLoose(KeptPosts(one.posts, b')) == CutLoose(KeptPosts(db.posts, b')) &&
            KeptPosts(db.posts, b').Keys <= KeptPosts(db.posts, b).Keys &&
            KeptComments(db.posts, db.comments, b').Keys <= KeptComments(db.posts, db.comments, b).Keys
  {
    KeptPostsTwice(db.posts, b, b');
    KeptCommentsTwice(db.posts, db.comments, b, b');
  }

  /** Main result. A purge makes any earlier one unnecessary: skipped days, late days and repeats
      (b == b') all leave exactly what one purge at the later time leaves. */
  lemma LaterPurgeAbsorbs(db: Db, b: int, b': int)
    requires b <= b'
    ensures PurgeGroup(PurgeGroup(db, b), b') == PurgeGroup(db, b')
  {
    KeptTwice(db, b, b');
    hide KeptComments, KeptPosts, CutLoose, PurgeSide, KeepSources, KeptNotes, KeptRows, KeptJobs, KeptLinks;
    var one := PurgeGroup(db, b);
    var p, c, p', c' := KeptPosts(db.posts, b).Keys, KeptComments(db.posts, db.comments, b).Keys,
                        KeptPosts(db.posts, b').Keys, KeptComments(db.posts, db.comments, b').Keys;
    SourcesTwice(db.sources, one.sources, db.notes, p, p', db.group);
    NotesTwice(db.sources, db.notes, p, p', db.group);
    NotesShrink(db, p, p');
    SideTwice(db.side, p, c, p', c', b, b');
    RowsTwice(db.fts, p, p');
    RowsTwice(db.postRefs, p, p');
    RowsTwice(db.commentRefs, c, c');
    JobsTwice(db, p, c, one.notes.Keys, p', c',
              KeptNotes(db.notes, KeepSources(db.sources, db.notes, p', db.group), p').Keys);
  }

  lemma NotesShrink(db: Db, posts: set<Id>, posts': set<Id>)
    requires posts' <= posts
    ensures KeptNotes(db.notes, KeepSources(db.sources, db.notes, posts', db.group), posts').Keys <=
            KeptNotes(db.notes, KeepSources(db.sources, db.notes, posts, db.group), posts).Keys
  {
    SourcesShrink(db.sources, db.notes, posts, db.group);
    SourcesShrink(db.sources, db.notes, posts', db.group);
  }

  /** Run twice with the same time, it does nothing the second time. */
  lemma PurgeIsIdempotent(db: Db, before: int)
    ensures PurgeGroup(PurgeGroup(db, before), before) == PurgeGroup(db, before)
  {
    LaterPurgeAbsorbs(db, before, before);
  }

  // ---- What is left is closed ----

  ghost predicate ItemsExist(side: Side, posts: set<Id>, comments: set<Id>) {
    && (forall k <- side.revisions :: Stays(posts, comments, k.0))
    && (forall r <- side.reports :: Stays(posts, comments, r.0))
    && (forall v <- side.flagVotes :: Stays(posts, comments, v.0))
    && (forall v <- side.votes :: Stays(posts, comments, v.0))
    && (forall i <- side.images :: side.images[i].post in posts &&
          (side.images[i].comment.Some? ==> side.images[i].comment.value in comments))
  }

  ghost predicate PostsExist(side: Side, posts: set<Id>) {
    && (forall f <- side.follows :: f.1 in posts)
    && (forall n <- side.nudges :: side.nudges[n] in posts)
    && (forall t <- side.postTopics :: t.0 in posts)
    && (forall f <- side.faqSources :: f.1 in posts)
    && (forall l <- side.sourceLinks :: l.1 == 0 || l.1 in posts)
    && (forall l <- side.sisterLinks :: l.0 in posts)
    && (forall n <- side.notices :: side.notices[n].post == 0 || side.notices[n].post in posts)
  }

  /** Nothing refers to a post, comment or note that is not there: no photo, version, report,
      vote, follow, nudge, tag, link, notification, index row, note, note source or AI job. */
  ghost predicate RefsClosed(db: Db) {
    var posts, comments := db.posts.Keys, db.comments.Keys;
    && ItemsExist(db.side, posts, comments) && PostsExist(db.side, posts)
    && (forall i <- db.fts :: db.fts[i] in posts)
    && (forall l <- db.links :: l.0 in posts && l.1 in posts)
    && (forall n <- db.notes :: db.notes[n].host in posts && HasSource(db.sources, n))
    && (forall s <- db.sources :: s.group == db.group ==> s.post in posts)
    && (forall k <- db.jobs :: JobStays(k, posts, comments, db.notes.Keys))
    && (forall p <- posts :: db.posts[p].continues.Some? ==> db.posts[p].continues.value in posts)
  }

  lemma SideClosed(side: Side, posts: set<Id>, comments: set<Id>, before: int)
    ensures ItemsExist(PurgeSide(side, posts, comments, before), posts, comments)
    ensures PostsExist(PurgeSide(side, posts, comments, before), posts)
  {
  }

  /** Main result. Whatever the tables hold, a purge leaves them closed. */
  lemma PurgeCloses(db: Db, before: int)
    ensures RefsClosed(PurgeGroup(db, before))
  {
    var posts := KeptPosts(db.posts, before);
    SourcesShrink(db.sources, db.notes, posts.Keys, db.group);
    SideClosed(db.side, posts.Keys, KeptComments(db.posts, db.comments, before).Keys, before);
    assert CutLoose(posts).Keys == posts.Keys;
    hide PurgeSide, KeepSources, ItemsExist, PostsExist;
  }

  // ---- Where the code falls short ----

  /** The purge asks for rows' post_id among the posts, so the rows of FAQ entries and outside
      pages, which carry 0, all go with the first purge, whatever its time. */
  lemma PurgeEmptiesTheFaqIndex(db: Db, before: int, i: Id)
    requires ContentOk(db) && i in db.fts && db.fts[i] == 0
    ensures i !in PurgeGroup(db, before).fts
  {
  }

  /** Whether a purge takes a comment: its own time is up, or its post's. */
  predicate Taken(db: Db, before: int, c: Id)
    requires c in db.comments
  {
    Expired(db.comments[c].purgeAfter, before) ||
    (db.comments[c].post in db.posts && Expired(db.posts[db.comments[c].post].purgeAfter, before))
  }

  /** A reply that a purge leaves points at nothing afterwards exactly when it did already, or the
      purge takes the comment it replies to. */
  lemma RepliesMayDangle(db: Db, before: int, c: Id)
    requires c in db.comments && db.comments[c].parent.Some?
    ensures var after, top := PurgeGroup(db, before).comments, db.comments[c].parent.value;
            (c in after <==> !Taken(db, before, c)) &&
            (c in after ==>
               after[c].parent == Some(top) && (top !in after <==> top !in db.comments || Taken(db, before, top)))
  {
  }
}
