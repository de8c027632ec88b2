/**
 The daily purge of a group, table by table: a row goes exactly when its own time is up or what it
 hangs on is gone, and every row that stays is as it was (internal/cmd/purge.go).
 */
module Purged {
  import opened Types
  import opened Jobs
  import opened Tables
  import C = Commands
  import Purge

  /** Its date is set, and lies before the purge's. */
  predicate Over(purgeAfter: Option<int>, before: int) {
    match purgeAfter case Some(t) => t < before case None => false
  }

  /** Whether an item's row is there. */
  predicate There(db: Db, item: Item) {
    match item.kind
    case APost => item.id in db.posts
    case AComment => item.id in db.comments
  }

  /** Posts whose time is up go, and so do comments whose own or whose post's time is up. A post that
      stays only loses the mark that it continues one that went. */
  ghost predicate ItemsLeft(db: Db, r: Db, before: int) {
    && (forall p :: p in r.posts <==> p in db.posts && !Over(db.posts[p].purgeAfter, before))
    && (forall p <- r.posts :: r.posts[p] ==
          match db.posts[p].continues
          case Some(q) => if q in r.posts then db.posts[p] else db.posts[p].(continues := None)
          case None => db.posts[p])
    && (forall c :: c in r.comments <==>
          c in db.comments && !Over(db.comments[c].purgeAfter, before) &&
          (db.comments[c].post in db.posts ==> db.comments[c].post in r.posts))
    && (forall c <- r.comments :: r.comments[c] == db.comments[c])
  }

  /** What hangs on an item stays while the item does; an earlier version also while its date lies ahead. */
  ghost predicate ItemRowsLeft(db: Db, r: Db, before: int) {
    && (forall k :: k in r.side.revisions <==>
          k in db.side.revisions && There(r, k.0) && !Over(Some(db.side.revisions[k]), before))
    && (forall k <- r.side.revisions :: r.side.revisions[k] == db.side.revisions[k])
    && (forall i <- r.side.images :: i in db.side.images && r.side.images[i] == db.side.images[i])
    && (forall i <- db.side.images :: i in r.side.images <==>
          db.side.images[i].post in r.posts &&
          match db.side.images[i].comment case Some(c) => c in r.comments case None => true)
  }

  /** So do what people said of it. */
  ghost predicate BallotsLeft(db: Db, r: Db) {
    && (forall x, u :: (x, u) in r.side.reports <==> (x, u) in db.side.reports && There(r, x))
    && (forall x, u :: (x, u) in r.side.votes <==> (x, u) in db.side.votes && There(r, x))
    && (forall v <- r.side.flagVotes :: v in db.side.flagVotes && r.side.flagVotes[v] == db.side.flagVotes[v])
    && (forall v <- db.side.flagVotes :: v in r.side.flagVotes <==> There(r, v.0))
  }

  /** What hangs on a post stays while the post does; a source's row for no post stays. */
  ghost predicate PostRowsLeft(db: Db, r: Db) {
    && (forall u, p :: (u, p) in r.side.follows <==> (u, p) in db.side.follows && p in r.posts)
    && (forall n :: n in r.side.nudges <==> n in db.side.nudges && db.side.nudges[n] in r.posts)
    && (forall n <- r.side.nudges :: r.side.nudges[n] == db.side.nudges[n])
    && (forall p, t :: (p, t) in r.side.postTopics <==> (p, t) in db.side.postTopics && p in r.posts)
    && (forall e, p :: (e, p) in r.side.faqSources <==> (e, p) in db.side.faqSources && p in r.posts)
    && (forall s, p, e :: (s, p, e) in r.side.sourceLinks <==> (s, p, e) in db.side.sourceLinks && (p == 0 || p in r.posts))
    && (forall p, g, o :: (p, g, o) in r.side.sisterLinks <==> (p, g, o) in db.side.sisterLinks && p in r.posts)
  }

  /** Notices go 90 days after they were read, or after 180; comments on FAQ entries when their time is
      up; feedback after 180 days. */
  ghost predicate DatedRowsLeft(db: Db, r: Db, before: int) {
    var day := 86400;
    && (forall n :: n in r.side.notices <==>
          && n in db.side.notices && (db.side.notices[n].post == 0 || db.side.notices[n].post in r.posts)
          && !Over(db.side.notices[n].readAt, before - 90 * day) && before - 180 * day <= db.side.notices[n].createdAt)
    && (forall n <- r.side.notices :: r.side.notices[n] == db.side.notices[n])
    && (forall c :: c in r.side.faqComments <==> c in db.side.faqComments && !Over(db.side.faqComments[c], before))
    && (forall c <- r.side.faqComments :: r.side.faqComments[c] == db.side.faqComments[c])
    && (forall f :: f in r.side.feedback <==> f in db.side.feedback && before - 180 * day <= db.side.feedback[f])
    && (forall f <- r.side.feedback :: r.side.feedback[f] == db.side.feedback[f])
  }

  /** A note goes with its host or its last source, a source with its post or its note's host. */
  ghost predicate NotesLeft(db: Db, r: Db) {
    && (forall s :: s in r.sources <==>
          s in db.sources && (s.group == db.group ==> s.post in r.posts) &&
          (s.note in db.notes ==> db.notes[s.note].host in r.posts))
    && (forall n :: n in r.notes <==>
          n in db.notes && db.notes[n].host in r.posts && exists s <- r.sources :: s.note == n)
    && (forall n <- r.notes :: r.notes[n] == db.notes[n])
  }

  /** Links, index rows, references and jobs stay while what they point at does. */
  ghost predicate PointersLeft(db: Db, r: Db) {
    && (forall l <- r.links :: l in db.links && r.links[l] == db.links[l])
    && (forall l <- db.links :: l in r.links <==> l.0 in r.posts && l.1 in r.posts)
    && (forall i <- r.fts :: i in db.fts && r.fts[i] == db.fts[i])
    && (forall i <- db.fts :: i in r.fts <==> db.fts[i] in r.posts)
    && (forall x :: x in r.postRefs <==> x in db.postRefs && db.postRefs[x] in r.posts)
    && (forall x <- r.postRefs :: r.postRefs[x] == db.postRefs[x])
    && (forall x :: x in r.commentRefs <==> x in db.commentRefs && db.commentRefs[x] in r.comments)
    && (forall x <- r.commentRefs :: r.commentRefs[x] == db.commentRefs[x])
    && (forall k <- r.jobs :: k in db.jobs && r.jobs[k] == db.jobs[k])
    && (forall k <- db.jobs :: k in r.jobs <==>
          match k.kind
          case Note => k.ref in r.notes
          case CheckComment => k.ref in r.comments
          case _ => k.ref in r.posts)
  }

  lemma PurgedKeys(db: Db, before: int)
    ensures var r := C.PurgeGroup(db, before);
            r.posts.Keys == C.KeptPosts(db.posts, before).Keys &&
            r.comments == C.KeptComments(db.posts, db.comments, before) &&
            r.side == C.PurgeSide(db.side, r.posts.Keys, r.comments.Keys, before)
  {
    assert C.CutLoose(C.KeptPosts(db.posts, before)).Keys == C.KeptPosts(db.posts, before).Keys;
    hide C.KeptPosts, C.KeptComments, C.CutLoose, C.PurgeSide, C.KeepSources, C.KeptNotes, C.KeptJobs, C.KeptRows,
      C.KeptLinks;
  }

  lemma PurgeLeavesItems(db: Db, before: int)
    ensures ItemsLeft(db, C.PurgeGroup(db, before), before)
  {
    PurgedKeys(db, before);
    hide C.PurgeSide, C.KeepSources, C.KeptNotes, C.KeptJobs, C.KeptRows, C.KeptLinks;
  }

  lemma ItemRowsLeave(db: Db, r: Db, before: int)
    requires r.side == C.PurgeSide(db.side, r.posts.Keys, r.comments.Keys, before)
    ensures ItemRowsLeft(db, r, before)
  {
    hide C.KeptPairs, C.KeptBallots, C.KeptNotices;
  }

  lemma BallotsLeave(db: Db, r: Db, before: int)
    requires r.side == C.PurgeSide(db.side, r.posts.Keys, r.comments.Keys, before)
    ensures BallotsLeft(db, r)
  {
    hide C.KeptRevisions, C.KeptImages, C.KeptNotices;
  }

  lemma PostRowsLeave(db: Db, r: Db, before: int)
    requires r.side == C.PurgeSide(db.side, r.posts.Keys, r.comments.Keys, before)
    ensures PostRowsLeft(db, r)
  {
    hide C.KeptRevisions, C.KeptImages, C.KeptPairs, C.KeptBallots, C.KeptNotices;
  }

  lemma DatedRowsLeave(db: Db, r: Db, before: int)
    requires r.side == C.PurgeSide(db.side, r.posts.Keys, r.comments.Keys, before)
    ensures DatedRowsLeft(db, r, before)
  {
    hide C.KeptRevisions, C.KeptImages, C.KeptPairs, C.KeptBallots;
  }

  /** Main result, table by table: exactly what a purge leaves of what hangs on posts and comments. */
  lemma PurgeLeavesSide(db: Db, before: int)
    ensures var r := C.PurgeGroup(db, before);
            ItemRowsLeft(db, r, before) && BallotsLeft(db, r) && PostRowsLeft(db, r) && DatedRowsLeft(db, r, before)
  {
    PurgedKeys(db, before);
    hide C.PurgeGroup, C.PurgeSide, ItemRowsLeft, BallotsLeft, PostRowsLeft, DatedRowsLeft;
    var r := C.PurgeGroup(db, before);
    ItemRowsLeave(db, r, before);
    BallotsLeave(db, r, before);
    PostRowsLeave(db, r, before);
    DatedRowsLeave(db, r, before);
  }

  lemma PurgeLeavesNotes(db: Db, before: int)
    ensures NotesLeft(db, C.PurgeGroup(db, before))
  {
    PurgedKeys(db, before);
    Purge.SourcesShrink(db.sources, db.notes, C.KeptPosts(db.posts, before).Keys, db.group);
    hide C.KeptPosts, C.KeptComments, C.CutLoose, C.PurgeSide, C.KeepSources, C.KeptJobs, C.KeptRows, C.KeptLinks;
  }

  /** And of what points at them, and the rest of the file. */
  lemma PurgeLeavesPointers(db: Db, before: int)
    ensures var r := C.PurgeGroup(db, before);
            PointersLeft(db, r) && r.group == db.group && r.members == db.members &&
            r.holdFirstPost == db.holdFirstPost &&
            r.voteThreshold == db.voteThreshold
  {
    PurgedKeys(db, before);
    hide C.KeptPosts, C.KeptComments, C.CutLoose, C.PurgeSide, C.KeepSources, C.KeptNotes;
  }
}
