/**
 What an import stores: the post's row, and the photos of the thread, of which those the post had are
 replaced and each comment that is shown gets the one it comes with (internal/cmd/archive.go).
 */
module Imported {
  import opened Types
  import opened Jobs
  import opened Tables
  import opened Commands
  import opened Content
  import opened Imports
  import opened Effects

  /** The comment of this reference is stored, and if it is shown, its photo is on it. */
  predicate PhotoPlaced(db: Db, post: Id, cm: ArchiveComment) {
    cm.ref in db.commentRefs && var id := db.commentRefs[cm.ref];
    id in db.comments &&
    (cm.image.Some? && Shown(db.comments[id].status) ==>
       cm.image.value in db.side.images && db.side.images[cm.image.value] == Image(post, Some(id)))
  }

  /** Nothing that was stored is lost, and nothing is hidden or shown that was not. */
  ghost predicate OnlyMore(a: Db, b: Db) {
    && b.side == a.side.(images := b.side.images)
    && (forall i <- a.side.images :: i in b.side.images && b.side.images[i] == a.side.images[i])
    && (forall x <- a.commentRefs :: x in b.commentRefs && b.commentRefs[x] == a.commentRefs[x])
    && (forall c <- a.comments :: c in b.comments && b.comments[c].status == a.comments[c].status)
  }

  lemma OnlyMoreThen(a: Db, b: Db, c: Db)
    requires OnlyMore(a, b) && OnlyMore(b, c)
    ensures OnlyMore(a, c)
  {
  }

  /** A placement that is new is one of these comments' photos. */
  ghost predicate FromThese(a: Db, b: Db, post: Id, cms: seq<ArchiveComment>) {
    forall i <- b.side.images | i !in a.side.images ::
      b.side.images[i].post == post && b.side.images[i].comment.Some? && exists k | 0 <= k < |cms| :: cms[k].image == Some(i)
  }

  lemma ImportCommentPhoto(im: Import, post: Id, cm: ArchiveComment)
    requires ImportComment(im, post, cm).Some?
    ensures var r := ImportComment(im, post, cm).value.db;
            OnlyMore(im.db, r) && PhotoPlaced(r, post, cm) && FromThese(im.db, r, post, [cm])
  {
    assert [cm][0] == cm;
  }

  lemma PhotoStays(a: Db, b: Db, post: Id, cm: ArchiveComment)
    requires PhotoPlaced(a, post, cm) && OnlyMore(a, b)
    ensures PhotoPlaced(b, post, cm)
  {
  }

  lemma FromTheseThen(a: Db, b: Db, c: Db, post: Id, cms: seq<ArchiveComment>, cm: ArchiveComment)
    requires FromThese(a, b, post, cms) && FromThese(b, c, post, [cm]) && OnlyMore(b, c)
    ensures FromThese(a, c, post, cms + [cm])
  {
    forall i | i in c.side.images && i !in a.side.images
      ensures c.side.images[i].post == post && c.side.images[i].comment.Some?
      ensures exists k | 0 <= k < |cms + [cm]| :: (cms + [cm])[k].image == Some(i)
    {
      if i in b.side.images {
        var k :| 0 <= k < |cms| && cms[k].image == Some(i);
        assert (cms + [cm])[k].image == Some(i);
      } else {
        assert (cms + [cm])[|cms|].image == Some(i);
      }
    }
  }

  lemma {:induction false} ImportCommentsPhotos(im: Import, post: Id, cms: seq<ArchiveComment>)
    requires ImportComments(im, post, cms).Some?
    ensures var r := ImportComments(im, post, cms).value.db;
            OnlyMore(im.db, r) && FromThese(im.db, r, post, cms) &&
            forall k | 0 <= k < |cms| :: PhotoPlaced(r, post, cms[k])
    decreases |cms|
  {
    hide ImportComment, PhotoPlaced;
    if cms != [] {
      var init, cm := cms[..|cms| - 1], cms[|cms| - 1];
      ImportCommentsPhotos(im, post, init);
      var before := ImportComments(im, post, init).value;
      var r := ImportComment(before, post, cm).value;
      ImportCommentPhoto(before, post, cm);
      OnlyMoreThen(im.db, before.db, r.db);
      FromTheseThen(im.db, before.db, r.db, post, init, cm);
      assert cms == init + [cm];
      forall k | 0 <= k < |cms| ensures PhotoPlaced(r.db, post, cms[k]) {
        if k < |init| {
          assert cms[k] == init[k];
          PhotoStays(before.db, r.db, post, cms[k]);
        }
      }
    }
  }

  /** The photos that were on the post or its comments are gone, and these are on the post. */
  ghost predicate Replaced(was: map<Id, Image>, now: map<Id, Image>, post: Id, images: seq<Id>) {
    && (forall i <- was | was[i].post != post :: i in now && now[i] == was[i])
    && (forall i <- images :: i in now && now[i] == Image(post, None))
    && (forall i <- now :: i in images || (i in was && was[i].post != post))
  }

  lemma ImportRowPhotos(db: Db, id: Id, ref: string, title: string, body: string, images: seq<Id>)
    requires ImportRow(db, id, ref, title, body, images).Some?
    ensures var row, pid := ImportRow(db, id, ref, title, body, images).value, Target(db, id, ref);
            Replaced(db.side.images, row.side.images, pid, images) && row.side == db.side.(images := row.side.images) &&
            row.comments == db.comments && row.commentRefs == db.commentRefs
  {
  }

  /** Nothing after the rows touches photos, references or statuses. */
  lemma ImportTail(db: Db, id: Id, ref: string, title: string, body: string, images: seq<Id>, cms: seq<ArchiveComment>,
                   at: int)
    requires ImportPost(db, id, ref, title, body, images, cms, at).Some? && !LeftAlone(db, ref)
    ensures var pid := Target(db, id, ref);
            ImportRow(db, id, ref, title, body, images).Some? &&
            var im := ImportComments(Import(ImportRow(db, id, ref, title, body, images).value, map[], false), pid, cms);
            var r := ImportPost(db, id, ref, title, body, images, cms, at).value;
            im.Some? && r.side == im.value.db.side && r.comments == im.value.db.comments &&
            r.commentRefs == im.value.db.commentRefs
  {
    hide ImportRow, ImportComments, ThreadChanged, Schedule, ShownComments;
    var pid := Target(db, id, ref);
    var im := ImportComments(Import(ImportRow(db, id, ref, title, body, images).value, map[], false), pid, cms).value;
    var counted := Recount(im.db, pid);
    if ThreadChanged(counted, pid, at).Some? { ThreadChangedSame(counted, pid, at); }
    if ThreadChanged(Marked(counted, pid, at), pid, at).Some? { ThreadChangedSame(Marked(counted, pid, at), pid, at); }
    hide SameContent;
  }

  /** Main result. An import replaces the post's photos by those it brings, puts each comment's photo on the
      comment if that is shown, and leaves every photo elsewhere, and every status, as it was. */
  lemma ImportPlacesPhotos(db: Db, id: Id, ref: string, title: string, body: string, images: seq<Id>,
                           cms: seq<ArchiveComment>, at: int)
    requires ImportPost(db, id, ref, title, body, images, cms, at).Some? && !LeftAlone(db, ref)
    ensures var r, pid := ImportPost(db, id, ref, title, body, images, cms, at).value, Target(db, id, ref);
            var was, now := db.side.images, r.side.images;
            && r.side == db.side.(images := now)
            && (forall i <- was | was[i].post != pid :: i in now && now[i] == was[i])
            && (forall i <- images :: i in now && now[i] == Image(pid, None))
            && (forall k | 0 <= k < |cms| :: PhotoPlaced(r, pid, cms[k]))
            && (forall i <- now :: i in images || (i in was && was[i].post != pid) ||
                                   (now[i].post == pid && exists k | 0 <= k < |cms| :: cms[k].image == Some(i)))
            && (forall c <- db.comments :: c in r.comments && r.comments[c].status == db.comments[c].status)
  {
    ImportTail(db, id, ref, title, body, images, cms, at);
    var pid := Target(db, id, ref);
    hide ImportPost, ImportComments, PhotoPlaced;
    ImportRowPhotos(db, id, ref, title, body, images);
    hide ImportRow;
    var row := ImportRow(db, id, ref, title, body, images).value;
    ImportCommentsPhotos(Import(row, map[], false), pid, cms);
    var end := ImportComments(Import(row, map[], false), pid, cms).value.db;
    forall k | 0 <= k < |cms|
      ensures PhotoPlaced(ImportPost(db, id, ref, title, body, images, cms, at).value, pid, cms[k])
    {
      SamePhoto(end, ImportPost(db, id, ref, title, body, images, cms, at).value, pid, cms[k]);
    }
  }

  lemma SamePhoto(a: Db, b: Db, post: Id, cm: ArchiveComment)
    requires PhotoPlaced(a, post, cm) && b.side == a.side && b.comments == a.comments && b.commentRefs == a.commentRefs
    ensures PhotoPlaced(b, post, cm)
  {
  }

  // ---- The post's row ----

  lemma ImportRowPost(db: Db, id: Id, ref: string, title: string, body: string, images: seq<Id>)
    requires ImportRow(db, id, ref, title, body, images).Some?
    ensures var row, pid := ImportRow(db, id, ref, title, body, images).value, Target(db, id, ref);
            && (ref !in db.postRefs <==> pid !in db.posts)
            && row.posts == db.posts[pid := if ref in db.postRefs then db.posts[pid].(title := title, body := body)
                                            else Post(0, title, body, Visible, 0, None, None, None, 1, 1, true, false, Some(ref))]
            && row.postRefs == db.postRefs[ref := pid] && row.jobs == db.jobs
  {
    hide ReplaceImages;
    var pid := Target(db, id, ref);
    var post := if ref in db.postRefs then db.posts[pid].(title := title, body := body)
                else Post(0, title, body, Visible, 0, None, None, None, 1, 1, true, false, Some(ref));
    ReplacedRest(db.(posts := db.posts[pid := post], postRefs := db.postRefs[ref := pid]), pid, images);
  }

  lemma ReplacedRest(db: Db, pid: Id, images: seq<Id>)
    requires ReplaceImages(db, pid, images).Some?
    ensures var r := ReplaceImages(db, pid, images).value; r == db.(side := r.side)
  {
    hide FreshImages;
  }

  lemma {:induction false} ImportCommentsPosts(im: Import, post: Id, cms: seq<ArchiveComment>)
    requires ImportComments(im, post, cms).Some?
    ensures var r := ImportComments(im, post, cms).value.db;
            r.posts == im.db.posts && r.postRefs == im.db.postRefs && r.jobs == im.db.jobs
    decreases |cms|
  {
    hide FreshImages, WithImages;
    if cms != [] { ImportCommentsPosts(im, post, cms[..|cms| - 1]); }
  }

  /** The tables as an import leaves them before it tells anyone, with the counter counted afresh. */
  lemma CountedRow(db: Db, id: Id, ref: string, title: string, body: string, images: seq<Id>, cms: seq<ArchiveComment>)
    requires ImportRow(db, id, ref, title, body, images).Some?
    requires ImportComments(Import(ImportRow(db, id, ref, title, body, images).value, map[], false), Target(db, id, ref), cms).Some?
    ensures var pid := Target(db, id, ref);
            var im := ImportComments(Import(ImportRow(db, id, ref, title, body, images).value, map[], false), pid, cms).value.db;
            && pid in im.posts && (ref in db.postRefs <==> pid in db.posts)
            && var r := Recount(im, pid);
               && r.postRefs == db.postRefs[ref := pid] && r.jobs == db.jobs && r.comments == im.comments
               && r.posts == db.posts[pid := (if ref in db.postRefs then db.posts[pid].(title := title, body := body)
                                              else Post(0, title, body, Visible, 0, None, None, None, 1, 1, true, false, Some(ref)))
                                             .(commentCount := |ShownComments(im.comments, pid)|)]
  {
    ImportRowPost(db, id, ref, title, body, images);
    var row := ImportRow(db, id, ref, title, body, images).value;
    ImportCommentsPosts(Import(row, map[], false), Target(db, id, ref), cms);
    hide ImportRow, ImportComments, ShownComments;
  }

  /** Main result. A new post is as the archive has it, without an author, shown and locked, with its check and
      its digest queued; one that is stored gets the archive's text, one more version and a check if that
      differs, and keeps the rest; the counter is the number of its shown comments. */
  lemma ImportedRow(db: Db, id: Id, ref: string, title: string, body: string, images: seq<Id>, cms: seq<ArchiveComment>,
                    at: int)
    requires ImportPost(db, id, ref, title, body, images, cms, at).Some? && !LeftAlone(db, ref)
    ensures var r, pid := ImportPost(db, id, ref, title, body, images, cms, at).value, Target(db, id, ref);
            var count := |ShownComments(r.comments, pid)|;
            && (ref in db.postRefs <==> pid in db.posts) && r.postRefs == db.postRefs[ref := pid]
            && if ref !in db.postRefs then
                 && r.posts == db.posts[pid := Post(0, title, body, Visible, count, None, None, None, 1, 1, true, false, Some(ref))]
                 && Open(r.jobs, JobKey(Check, pid), 1) && Open(r.jobs, JobKey(Digest, pid), 1)
               else
                 var was := db.posts[pid];
                 var now := was.(title := title, body := body, commentCount := count);
                 if was.title == title && was.body == body
                 then SamePosts(db.posts[pid := now], r.posts) && ChecksStay(db.jobs, r.jobs)
                 else SamePosts(db.posts[pid := now.(version := was.version + 1)], r.posts) &&
                      CheckQueued(db.jobs, r.jobs, JobKey(Check, pid), was.version + 1)
  {
    hide ImportComments, ThreadChanged, ImportRow, ShownComments, SamePosts, Recount, ChecksStay, CheckQueued;
    var pid := Target(db, id, ref);
    var im := ImportComments(Import(ImportRow(db, id, ref, title, body, images).value, map[], false), pid, cms).value;
    CountedRow(db, id, ref, title, body, images, cms);
    ImportTail(db, id, ref, title, body, images, cms, at);
    var counted, r := Recount(im.db, pid), ImportPost(db, id, ref, title, body, images, cms, at).value;
    if ref in db.postRefs {
      var was, now := db.posts[pid], counted.posts[pid];
      assert now == was.(title := title, body := body, commentCount := |ShownComments(r.comments, pid)|);
      if was.title != title || was.body != body {
        EditedHere(counted, pid, at);
        assert counted.posts[pid := now.(version := now.version + 1)] == db.posts[pid := now.(version := was.version + 1)];
      } else {
        RowsSelf(counted);
        assert r == counted || Some(r) == ThreadChanged(counted, pid, at);
        if im.changed {
          ToldRest(counted, pid, at);
          ChangedRest(counted, pid, at);
        }
      }
    } else {
      OpenBoth(counted.jobs, pid, at);
      hide Schedule;
    }
  }

  lemma RowsSelf(db: Db)
    ensures SamePosts(db.posts, db.posts) && ChecksStay(db.jobs, db.jobs)
  {
  }

  lemma OpenBoth(jobs: Queue, pid: Id, at: int)
    ensures var r := Schedule(Schedule(jobs, JobKey(Check, pid), 1, at, at), JobKey(Digest, pid), 1, at, at);
            Open(r, JobKey(Check, pid), 1) && Open(r, JobKey(Digest, pid), 1)
  {
  }

  lemma EditedHere(db: Db, p: Id, at: int)
    requires p in db.posts && PostEdited(db, p, at).Some?
    ensures var r := PostEdited(db, p, at).value;
            && SamePosts(db.posts[p := db.posts[p].(version := db.posts[p].version + 1)], r.posts)
            && CheckQueued(db.jobs, r.jobs, JobKey(Check, p), db.posts[p].version + 1)
            && r.postRefs == db.postRefs && r.comments == db.comments
  {
    hide ThreadChanged, SamePosts, ChecksStay, CheckQueued, Schedule;
    var put := Marked(db, p, at);
    ToldRest(put, p, at);
    ChangedRest(put, p, at);
    ThenQueued(db.jobs, put.jobs, ThreadChanged(put, p, at).value.jobs, JobKey(Check, p), db.posts[p].version + 1, at);
  }
}
