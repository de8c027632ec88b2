/**
 What the commands of people and mods store, column by column, and when they are refused
 (internal/cmd/posts.go, moderation.go).
 */
module Effects {
  import opened Types
  import opened Jobs
  import opened Tables
  import opened Commands
  import opened Content
  import opened Index
  import opened OldVersions

  /** A job waits, for this version. */
  predicate Open(jobs: Queue, k: JobKey, version: nat) {
    k in jobs && jobs[k].doneAt.None? && jobs[k].refVersion == version
  }

  /** Some item of this person's is shown. */
  ghost predicate Known(db: Db, user: Id) {
    exists item :: Exists(db, item) && AuthorOf(db, item) == user && Shown(StatusOf(db, item))
  }

  ghost predicate Active(db: Db, user: Id) { user in db.members && db.members[user].active }

  /** The placements with these ids are added. */
  ghost predicate Placed(was: map<Id, Image>, now: map<Id, Image>, ids: seq<Id>, image: Image) {
    && (forall i <- ids :: i in now && now[i] == image) && (forall i <- was | i !in ids :: i in now && now[i] == was[i])
    && forall i <- now :: i in was || i in ids
  }

  ghost predicate CanPlace(was: map<Id, Image>, ids: seq<Id>) {
    (forall i <- ids :: i !in was) && forall j, k | 0 <= j < |ids| && 0 <= k < |ids| && ids[j] == ids[k] :: j == k
  }

  lemma ShownIsKnown(db: Db, user: Id)
    ensures HasShownContent(db, user) <==> Known(db, user)
  {
    if p :| p in db.posts && db.posts[p].user == user && Shown(db.posts[p].status) {
      assert Exists(db, Item(APost, p));
    }
    if c :| c in db.comments && db.comments[c].user == user && Shown(db.comments[c].status) {
      assert Exists(db, Item(AComment, c));
    }
  }

  // ---- Posts ----

  /** A new post is as it was sent; a first one waits for a mod where the group wants that. Its author
      follows it, and its check and its digest are queued. */
  lemma CreatePostIs(db: Db, id: Id, user: Id, title: string, body: string, images: seq<Id>, at: int)
    requires CreatePost(db, id, user, title, body, images, at).Some?
    ensures var r := CreatePost(db, id, user, title, body, images, at).value;
            var status := if db.holdFirstPost && !Known(db, user) && !db.members[user].mod then Held else Visible;
            && r.posts == db.posts[id := Post(user, title, body, status, 0, None, None, None, 1, 1, false, false, None)]
            && r.fts == (if status == Visible then db.fts[id := id] else db.fts)
            && r.side == db.side.(images := r.side.images, follows := db.side.follows + {(user, id)})
            && Placed(db.side.images, r.side.images, images, Image(id, None))
            && Open(r.jobs, JobKey(Check, id), 1) && Open(r.jobs, JobKey(Digest, id), 1)
            && (forall k: JobKey | k != JobKey(Check, id) && k != JobKey(Digest, id) :: Find(r.jobs, k) == Find(db.jobs, k))
            && r == db.(posts := r.posts, fts := r.fts, side := r.side, jobs := r.jobs)
  {
    ShownIsKnown(db, user);
    hide HasShownContent, Known, FreshImages;
  }

  lemma CreatePostRefusedIff(db: Db, id: Id, user: Id, title: string, body: string, images: seq<Id>, at: int)
    ensures CreatePost(db, id, user, title, body, images, at).None? <==>
            || title == "" || |title| > 300 || |body| > 40000 || |images| > 10
            || !Active(db, user) || id in db.posts || !CanPlace(db.side.images, images)
  {
    hide FirstPostStatus, Schedule, WithImages;
  }

  /** The versions stored of an item, with one more: numbered after how many there were, and kept 90 days. */
  ghost predicate VersionSaved(was: Side, now: Side, item: Item, at: int) {
    var numbers := set k | k in was.revisions && k.0 == item :: k.1;
    now == was.(revisions := was.revisions[(item, |numbers| + 1) := at + 90 * 86400])
  }

  lemma SavedVersion(db: Db, item: Item, at: int)
    requires SaveRevision(db, item, at).Some?
    ensures VersionSaved(db.side, SaveRevision(db, item, at).value.side, item, at)
  {
    assert Revisions(db.side, item) == set k | k in db.side.revisions && k.0 == item :: k.1;
  }

  /** A change of a thread touches thread versions, marks on notes and the queue, and no check. */
  lemma ChangedRest(db: Db, p: Id, at: int)
    requires ThreadChanged(db, p, at).Some?
    ensures var r := ThreadChanged(db, p, at).value;
            r == db.(posts := r.posts, jobs := r.jobs, notes := r.notes) && SamePosts(db.posts, r.posts)
    ensures ChecksStay(db.jobs, ThreadChanged(db, p, at).value.jobs)
  {
    ThreadChangedSame(db, p, at);
    TouchedRest(db, p, at);
    if db.posts[p].continues.Some? { TouchedRest(Touch(db, p, at), db.posts[p].continues.value, at); }
    hide Touch;
  }

  lemma ToldRest(db: Db, p: Id, at: int)
    requires ThreadChanged(db, p, at).Some?
    ensures var r := ThreadChanged(db, p, at).value;
            r.side == db.side && r.comments == db.comments && r.fts == db.fts && SamePosts(db.posts, r.posts) &&
            ChecksStay(db.jobs, r.jobs)
  {
    ChangedRest(db, p, at);
    hide ThreadChanged, SamePosts, ChecksStay;
  }

  lemma MarkedRest(db: Db, saved: Db, id: Id, title: string, body: string, at: int)
    requires id in db.posts && saved.posts == db.posts && saved.jobs == db.jobs
    ensures var put := Marked(Retitled(saved, id, title, body), id, at);
            put.jobs == Schedule(db.jobs, JobKey(Check, id), db.posts[id].version + 1, at, at) && put.side == saved.side
  {
  }

  lemma TouchedRest(db: Db, p: Id, at: int)
    requires p in db.posts
    ensures var r := Touch(db, p, at); r == db.(posts := r.posts, jobs := r.jobs, notes := r.notes)
    ensures ChecksStay(db.jobs, Touch(db, p, at).jobs)
  {
    hide CitingNotes, MarkStale, NoteVersion;
  }

  /** Only the check of one item is queued, for this version. */
  ghost predicate CheckQueued(was: Queue, now: Queue, k: JobKey, version: nat) {
    Open(now, k, version) &&
    forall j: JobKey | (j.kind == Check || j.kind == CheckComment) && j != k :: Find(now, j) == Find(was, j)
  }

  lemma ThenQueued(was: Queue, put: Queue, now: Queue, k: JobKey, version: nat, at: int)
    requires put == Schedule(was, k, version, at, at) && (k.kind == Check || k.kind == CheckComment)
    requires ChecksStay(put, now)
    ensures CheckQueued(was, now, k, version)
  {
    assert Find(now, k) == Find(put, k);
  }

  lemma EditPostParts(db: Db, id: Id, title: string, body: string, at: int)
    requires EditPost(db, id, title, body, at).Some?
    ensures SaveRevision(db, Item(APost, id), at).Some?
    ensures var saved, r := SaveRevision(db, Item(APost, id), at).value, EditPost(db, id, title, body, at).value;
            id in saved.posts &&
            var told := ThreadChanged(Marked(Retitled(saved, id, title, body), id, at), id, at);
            told.Some? && r.side == told.value.side && r.jobs == told.value.jobs
  {
    hide SaveRevision, ThreadChanged;
  }

  lemma EditedRow(db: Db, id: Id, title: string, body: string, at: int)
    requires UpdatesOneDeep(db.posts) && EditPost(db, id, title, body, at).Some?
    ensures var r := EditPost(db, id, title, body, at).value;
            && id in db.posts && r.comments == db.comments
            && SamePosts(db.posts[id := db.posts[id].(title := title, body := body, version := db.posts[id].version + 1)], r.posts)
  {
    EditPostIs(db, id, title, body, at);
    assert id in db.posts;
    hide EditPost, SamePosts, UpdatesOneDeep;
  }

  lemma EditedRest(db: Db, id: Id, title: string, body: string, at: int)
    requires EditPost(db, id, title, body, at).Some? && id in db.posts
    ensures var r := EditPost(db, id, title, body, at).value;
            VersionSaved(db.side, r.side, Item(APost, id), at) &&
            CheckQueued(db.jobs, r.jobs, JobKey(Check, id), db.posts[id].version + 1)
  {
    EditPostParts(db, id, title, body, at);
    hide EditPost;
    SavedVersion(db, Item(APost, id), at);
    SavedIs(db, Item(APost, id), at);
    hide SaveRevision, VersionSaved, ThreadChanged, SamePosts, CheckQueued, ChecksStay, Marked, Retitled, Schedule;
    var saved := SaveRevision(db, Item(APost, id), at).value;
    var put := Marked(Retitled(saved, id, title, body), id, at);
    MarkedRest(db, saved, id, title, body, at);
    ToldRest(put, id, at);
    ThenQueued(db.jobs, put.jobs, ThreadChanged(put, id, at).value.jobs, JobKey(Check, id), db.posts[id].version + 1,
               at);
  }

  /** An edited post has the new text, one more version, a check of that version, and the old one stored. */
  lemma EditPostDoes(db: Db, id: Id, title: string, body: string, at: int)
    requires UpdatesOneDeep(db.posts) && EditPost(db, id, title, body, at).Some?
    ensures var r := EditPost(db, id, title, body, at).value;
            && id in db.posts && r.comments == db.comments
            && SamePosts(db.posts[id := db.posts[id].(title := title, body := body, version := db.posts[id].version + 1)], r.posts)
            && VersionSaved(db.side, r.side, Item(APost, id), at)
            && CheckQueued(db.jobs, r.jobs, JobKey(Check, id), db.posts[id].version + 1)
  {
    EditedRow(db, id, title, body, at);
    EditedRest(db, id, title, body, at);
    hide EditPost, UpdatesOneDeep, SamePosts, VersionSaved, CheckQueued;
  }

  lemma EditPostRefused(db: Db, id: Id, title: string, body: string, at: int)
    requires title == "" || |title| > 300 || |body| > 40000 || id !in db.posts || Gone(db.posts[id].status)
    ensures EditPost(db, id, title, body, at).None?
  {
  }

  // ---- Comments ----

  /** What a comment sent as a reply to another hangs on: replies are one deep. */
  function Under(db: Db, parent: Id): Option<Id>
    requires parent == 0 || parent in db.comments
  {
    if parent == 0 then None
    else match db.comments[parent].parent
      case None => Some(parent)
      case Some(top) => Some(top)
  }

  predicate CanReplyTo(db: Db, post: Id, parent: Id) {
    parent == 0 || (parent in db.comments && db.comments[parent].post == post)
  }

  lemma ReplyParentIs(db: Db, post: Id, parent: Id)
    ensures ReplyParent(db, post, parent) == if CanReplyTo(db, post, parent) then Some(Under(db, parent)) else None
  {
  }

  lemma ImagesPlaced(side: Side, post: Id, comment: Option<Id>, ids: seq<Id>)
    ensures var r := WithImages(side, post, comment, ids);
            r == side.(images := r.images) && Placed(side.images, r.images, ids, Image(post, comment))
  {
  }

  lemma CreateCommentParts(db: Db, id: Id, post: Id, parent: Id, user: Id, body: string, image: Option<Id>, at: int)
    requires CreateComment(db, id, post, parent, user, body, image, at).Some?
    ensures CanReplyTo(db, post, parent) && post in db.posts
    ensures var r := CreateComment(db, id, post, parent, user, body, image, at).value;
            var images := if image.Some? then [image.value] else [];
            var c := Comment(post, Under(db, parent), user, body, Visible, None, 1, false, None);
            var put := AddCount(db.(comments := db.comments[id := c], side := WithImages(db.side, post, Some(id), images)), post, 1);
            var told := ThreadChanged(put, post, at);
            told.Some? &&
            r == told.value.(jobs := Schedule(told.value.jobs, JobKey(CheckComment, id), 1, at, at),
                             fts := told.value.fts[id := post])
  {
    ReplyParentIs(db, post, parent);
    hide ThreadChanged, FreshImages, IsMember, Schedule, ReplyParent, Under, CanReplyTo, WithImages;
  }

  /** A new comment is as it was sent, under the comment it replies to or the one that hangs on. */
  lemma CreateCommentIs(db: Db, id: Id, post: Id, parent: Id, user: Id, body: string, image: Option<Id>, at: int)
    requires CreateComment(db, id, post, parent, user, body, image, at).Some?
    ensures var r := CreateComment(db, id, post, parent, user, body, image, at).value;
            && CanReplyTo(db, post, parent) && post in db.posts
            && r.comments == db.comments[id := Comment(post, Under(db, parent), user, body, Visible, None, 1, false, None)]
            && SamePosts(db.posts[post := db.posts[post].(commentCount := db.posts[post].commentCount + 1)], r.posts)
            && r.fts == db.fts[id := post]
            && r.side == db.side.(images := r.side.images)
            && Placed(db.side.images, r.side.images, if image.Some? then [image.value] else [], Image(post, Some(id)))
            && CheckQueued(db.jobs, r.jobs, JobKey(CheckComment, id), 1)
  {
    CreateCommentParts(db, id, post, parent, user, body, image, at);
    hide CreateComment, ThreadChanged, WithImages, SamePosts, Placed, CanReplyTo, Under, CheckQueued, ChecksStay,
      Schedule;
    var images := if image.Some? then [image.value] else [];
    ImagesPlaced(db.side, post, Some(id), images);
    var c := Comment(post, Under(db, parent), user, body, Visible, None, 1, false, None);
    var put := AddCount(db.(comments := db.comments[id := c], side := WithImages(db.side, post, Some(id), images)), post, 1);
    ChangedRest(put, post, at);
    AlsoQueued(db.jobs, ThreadChanged(put, post, at).value.jobs, JobKey(CheckComment, id), 1, at);
  }

  lemma CommentCanBeTold(db: Db, put: Db, post: Id, at: int)
    requires UpdatesOneDeep(db.posts) && post in db.posts
    requires post in put.posts && put.posts == db.posts[post := db.posts[post].(commentCount := put.posts[post].commentCount)]
    ensures ThreadChanged(put, post, at).Some?
  {
    UpdatesDependOnLinks(db.posts, put.posts);
    CanBeTold(put, post, at);
  }

  lemma CreateCommentRefusedIff(db: Db, id: Id, post: Id, parent: Id, user: Id, body: string, image: Option<Id>,
                                at: int)
    requires ContentOk(db)
    ensures CreateComment(db, id, post, parent, user, body, image, at).None? <==>
            || (body == "" && image == None) || |body| > 10000
            || !Active(db, user) || post !in db.posts || !Shown(db.posts[post].status) || db.posts[post].locked
            || !CanReplyTo(db, post, parent) || id in db.comments || (image.Some? && image.value in db.side.images)
  {
    assert UpdatesOneDeep(db.posts);
    hide ContentOk, UpdatesOneDeep, ThreadChanged, WithImages, Schedule;
    assert ReplyParent(db, post, parent).Some? <==> CanReplyTo(db, post, parent);
    if post in db.posts && ReplyParent(db, post, parent).Some? {
      var images := if image.Some? then [image.value] else [];
      var c := Comment(post, ReplyParent(db, post, parent).value, user, body, Visible, None, 1, false, None);
      var put := AddCount(db.(comments := db.comments[id := c], side := WithImages(db.side, post, Some(id), images)), post, 1);
      CommentCanBeTold(db, put, post, at);
      hide ReplyParent, CanReplyTo;
      assert FreshImages(db, images) <==> !(image.Some? && image.value in db.side.images);
      hide FreshImages;
    }
  }

  lemma EditCommentParts(db: Db, id: Id, body: string, at: int)
    requires EditComment(db, id, body, at).Some?
    ensures SaveRevision(db, Item(AComment, id), at).Some? && id in db.comments
    ensures var saved, r := SaveRevision(db, Item(AComment, id), at).value, EditComment(db, id, body, at).value;
            id in saved.comments &&
            var told := ThreadChanged(Rewritten(saved, id, body, at), db.comments[id].post, at);
            && told.Some? && r.side == told.value.side && r.jobs == told.value.jobs && r.posts == told.value.posts
            && r.comments == told.value.comments
            && r.fts == if Shown(db.comments[id].status) then told.value.fts[id := db.comments[id].post] else told.value.fts
  {
    EditCommentIs(db, id, body, at);
    assert id in db.comments;
    hide EditComment, SaveRevision, ThreadChanged, Rewritten;
  }

  lemma RewrittenRows(db: Db, saved: Db, id: Id, body: string, at: int)
    requires id in db.comments && saved == db.(side := saved.side)
    ensures var put := Rewritten(saved, id, body, at);
            put.comments == db.comments[id := db.comments[id].(body := body, version := db.comments[id].version + 1)] &&
            put.side == saved.side && put.jobs == Schedule(db.jobs, JobKey(CheckComment, id), db.comments[id].version + 1, at, at) &&
            put.posts == db.posts && put.fts == db.fts
  {
  }

  /** So does an edited comment. */
  lemma EditCommentDoes(db: Db, id: Id, body: string, at: int)
    requires EditComment(db, id, body, at).Some?
    ensures var r := EditComment(db, id, body, at).value;
            && id in db.comments
            && r.comments == db.comments[id := db.comments[id].(body := body, version := db.comments[id].version + 1)]
            && SamePosts(db.posts, r.posts) && VersionSaved(db.side, r.side, Item(AComment, id), at)
            && r.fts == (if Shown(db.comments[id].status) then db.fts[id := db.comments[id].post] else db.fts)
            && CheckQueued(db.jobs, r.jobs, JobKey(CheckComment, id), db.comments[id].version + 1)
  {
    hide EditComment, SaveRevision, VersionSaved, ThreadChanged, SamePosts, CheckQueued, ChecksStay, Rewritten,
      Schedule;
    EditCommentParts(db, id, body, at);
    SavedVersion(db, Item(AComment, id), at);
    SavedIs(db, Item(AComment, id), at);
    var saved := SaveRevision(db, Item(AComment, id), at).value;
    RewrittenRows(db, saved, id, body, at);
    var put := Rewritten(saved, id, body, at);
    ToldRest(put, db.comments[id].post, at);
    ThenQueued(db.jobs, put.jobs, ThreadChanged(put, db.comments[id].post, at).value.jobs, JobKey(CheckComment, id),
               db.comments[id].version + 1, at);
  }

  lemma EditCommentRefused(db: Db, id: Id, body: string, at: int)
    requires body == "" || |body| > 10000 || id !in db.comments || Gone(db.comments[id].status)
    ensures EditComment(db, id, body, at).None?
  {
  }

  // ---- Statuses ----

  /** The item has this status, date and mark; nothing else that is read of posts and comments changed, but
      for the counter of shown comments and the index. */
  ghost predicate Becomes(db: Db, r: Db, item: Item, to: Status, purge: Option<int>, cleared: bool)
    requires Exists(db, item)
  {
    && (forall p <- db.posts :: p in r.posts &&
          SameRow(if item != Item(APost, p) then db.posts[p]
                  else db.posts[p].(status := to, purgeAfter := purge, aiCleared := cleared),
                  r.posts[p].(commentCount := db.posts[p].commentCount)))
    && r.posts.Keys == db.posts.Keys
    && r.comments == (if item.kind == APost then db.comments else
                        db.comments[item.id := db.comments[item.id].(status := to, purgeAfter := purge, aiCleared := cleared)])
  }

  lemma RestatusBecomes(db: Db, r: Db, item: Item, to: Status, purge: Option<int>)
    requires Exists(db, item) && ThreadOf(db, item) in db.posts && SameContent(Restatus(db, item, to, purge), r)
    ensures Becomes(db, r, item, to, purge, Cleared(db, item))
  {
    if item.kind == APost {
    } else {
    }
  }

  lemma SoftDeleteDoes(db: Db, item: Item, byMod: bool, at: int)
    requires ContentOk(db) && Exists(db, item)
    ensures var r := SoftDelete(db, item, byMod, at);
            r.Some? &&
            if Gone(StatusOf(db, item)) then r.value == db
            else Becomes(db, r.value, item, if byMod then Removed else Deleted, Some(at + (if byMod then 90 else 30) * 86400),
                         Cleared(db, item))
  {
    SoftDeleteOk(db, item, byMod, at);
    ItemFacts(db, item);
    hide ContentOk, Becomes, Afterwards, SameContent, Restatus;
    if !Gone(StatusOf(db, item)) {
      var to, keep := if byMod then Removed else Deleted, if byMod then MOD_REMOVE_KEEP else AUTHOR_DELETE_KEEP;
      SoftDeleteIs(db, item, byMod, at);
      hide SoftDelete;
      AfterwardsSame(db, item, to, Some(at + keep), at);
      RestatusBecomes(db, Afterwards(db, item, to, Some(at + keep), at).value, item, to, Some(at + keep));
    }
  }

  lemma RestoreDoes(db: Db, item: Item, at: int)
    requires ContentOk(db) && Exists(db, item)
    ensures var r := Restore(db, item, at);
            r.Some? &&
            if StatusOf(db, item) == Visible then r.value == db
            else Becomes(db, r.value, item, Visible, None, Cleared(db, item))
  {
    RestoreOk(db, item, at);
    ItemFacts(db, item);
    hide ContentOk, Becomes, Afterwards, SameContent, Restatus, ThreadChanged;
    if StatusOf(db, item) != Visible {
      assert Restore(db, item, at) == Afterwards(db, item, Visible, None, at);
      hide Restore;
      AfterwardsSame(db, item, Visible, None, at);
      RestatusBecomes(db, Afterwards(db, item, Visible, None, at).value, item, Visible, None);
    }
  }

  lemma ChangeStatusDoes(db: Db, item: Item, to: Status, at: int)
    requires ContentOk(db) && Exists(db, item)
    ensures var r := ChangeStatus(db, item, to, at);
            && r.Some? && r.value.side == db.side && r.value.members == db.members
            && Becomes(db, r.value, item, to, PurgeOf(db, item), Cleared(db, item))
            && ChecksStay(db.jobs, r.value.jobs)
  {
    ItemFacts(db, item);
    hide ContentOk, SameContent, Becomes;
    if StatusOf(db, item) == to {
      SameContentSelf(db);
      SameStatus(db, item);
    } else {
      ChangeStatusIs(db, item, to, at);
      hide ChangeStatus;
      RestatusRest(db, item, to, PurgeOf(db, item));
      var put := Restatus(db, item, to, PurgeOf(db, item));
      hide Restatus, ThreadChanged;
      CanBeTold(put, ThreadOf(db, item), at);
      ThreadChangedSame(put, ThreadOf(db, item), at);
      ChangedRest(put, ThreadOf(db, item), at);
      RestatusBecomes(db, ThreadChanged(put, ThreadOf(db, item), at).value, item, to, PurgeOf(db, item));
    }
  }

  lemma RestatusRest(db: Db, item: Item, to: Status, purge: Option<int>)
    requires Exists(db, item) && ThreadOf(db, item) in db.posts
    ensures var put := Restatus(db, item, to, purge);
            put.side == db.side && put.members == db.members && put.jobs == db.jobs &&
            ThreadOf(db, item) in put.posts &&
            (UpdatesOneDeep(db.posts) ==> UpdatesOneDeep(put.posts))
  {
    hide UpdatesOneDeep;
    if item.kind == APost {
      if UpdatesOneDeep(db.posts) { UpdatesDependOnLinks(db.posts, Restatus(db, item, to, purge).posts); }
    } else {
      if UpdatesOneDeep(db.posts) { UpdatesDependOnLinks(db.posts, Restatus(db, item, to, purge).posts); }
    }
  }

  lemma SameContentSelf(db: Db)
    ensures SameContent(db, db)
  {
  }

  lemma SameStatus(db: Db, item: Item)
    requires Exists(db, item)
    ensures Becomes(db, db, item, StatusOf(db, item), PurgeOf(db, item), Cleared(db, item))
  {
    if item.kind == APost {
    } else {
    }
  }

  /** What a check's verdict makes of an item that is shown and was not cleared for good. */
  function Judged(db: Db, item: Item, verdict: Verdict): Status
    requires Exists(db, item)
  {
    if Cleared(db, item) || !Shown(StatusOf(db, item)) then StatusOf(db, item)
    else match verdict
      case Fine => StatusOf(db, item)
      case Borderline => Flagged
      case Violation => AutoHidden
  }

  lemma ApplyVerdictDoes(db: Db, item: Item, verdict: Verdict, at: int)
    requires ContentOk(db) && Exists(db, item)
    ensures var r := ApplyVerdict(db, item, verdict, at);
            && r.Some? && Becomes(db, r.value, item, Judged(db, item, verdict), PurgeOf(db, item), Cleared(db, item))
  {
    SameStatus(db, item);
    var to := Judged(db, item, verdict);
    if to != StatusOf(db, item) {
      assert ApplyVerdict(db, item, verdict, at) == ChangeStatus(db, item, to, at);
      hide ContentOk, ChangeStatus, Becomes, ApplyVerdict, StatusOf, Cleared, PurgeOf;
      ChangeStatusDoes(db, item, to, at);
    } else {
      hide ContentOk, ChangeStatus, Becomes, PurgeOf;
    }
  }

  /** A verdict on a comment counts only from the worker who holds the check, of the version it is. */
  lemma SetCommentCheckDoes(db: Db, id: Id, worker: string, version: nat, verdict: Verdict, at: int)
    requires ContentOk(db)
    ensures var r := SetCommentCheck(db, id, worker, version, verdict, at);
            && (r.None? <==> id !in db.comments)
            && (id in db.comments ==>
                  var item := Item(AComment, id);
                  Becomes(db, r.value, item,
                          if HeldBy(db.jobs, CheckKey(item), worker) && version == db.comments[id].version
                          then Judged(db, item, verdict) else StatusOf(db, item),
                          PurgeOf(db, item), Cleared(db, item)))
  {
    if id in db.comments {
      var item := Item(AComment, id);
      assert Exists(db, item);
      var finished := db.(jobs := Finish(db.jobs, CheckKey(item), worker, version, db.comments[id].version, at));
      FinishedDoes(db, finished.jobs, item, verdict, at);
      hide ContentOk, ApplyVerdict, Finish, HeldBy, Becomes, Judged, PurgeOf, Cleared, StatusOf;
    }
  }

  lemma FinishedDoes(db: Db, jobs: Queue, item: Item, verdict: Verdict, at: int)
    requires ContentOk(db) && Exists(db, item)
    ensures var finished := db.(jobs := jobs);
            var r := ApplyVerdict(finished, item, verdict, at);
            && r.Some? && Becomes(db, r.value, item, Judged(db, item, verdict), PurgeOf(db, item), Cleared(db, item))
            && Becomes(db, finished, item, StatusOf(db, item), PurgeOf(db, item), Cleared(db, item))
  {
    var finished := db.(jobs := jobs);
    JobsDoNotMatter(db, finished);
    UnreadBecomes(db, finished, item);
    hide ContentOk, ApplyVerdict;
    ApplyVerdictDoes(finished, item, verdict, at);
    JobsBecome(db, jobs, ApplyVerdict(finished, item, verdict, at).value, item, verdict);
  }

  lemma JobsBecome(db: Db, jobs: Queue, r: Db, item: Item, verdict: Verdict)
    requires Exists(db, item)
    requires var put := db.(jobs := jobs);
             Becomes(put, r, item, Judged(put, item, verdict), PurgeOf(put, item), Cleared(put, item))
    ensures Becomes(db, r, item, Judged(db, item, verdict), PurgeOf(db, item), Cleared(db, item))
  {
  }

  /** Approving shows an item and clears it for good; a post that was held gets its check. */
  lemma ApproveDoes(db: Db, item: Item, at: int)
    requires ContentOk(db)
    ensures var r := Approve(db, item, at);
            && (r.None? <==> !Exists(db, item) || Gone(StatusOf(db, item)))
            && (r.Some? ==>
                  && Becomes(db, r.value, item, Visible, PurgeOf(db, item), true) && r.value.side == db.side
                  && if item.kind == APost && StatusOf(db, item) == Held
                     then CheckQueued(db.jobs, r.value.jobs, CheckKey(item), VersionOf(db, item))
                     else ChecksStay(db.jobs, r.value.jobs))
  {
    if Exists(db, item) && !Gone(StatusOf(db, item)) {
      ApproveShows(db, item, at);
      ApproveIs(db, item, at);
      hide Approve, ContentOk, ChangeStatus, Becomes, SetCleared, CheckQueued, ChecksStay, Schedule, VersionOf, PurgeOf,
        Cleared, StatusOf, Exists;
    }
  }

  lemma ApproveIs(db: Db, item: Item, at: int)
    requires Exists(db, item) && !Gone(StatusOf(db, item))
    requires var changed := ChangeStatus(db, item, Visible, at);
             changed.Some? && Exists(changed.value, item) && Exists(SetCleared(changed.value, item), item)
    ensures var cleared := SetCleared(ChangeStatus(db, item, Visible, at).value, item);
            Approve(db, item, at) ==
            Some(if item.kind == APost && StatusOf(db, item) == Held
                 then cleared.(jobs := Schedule(cleared.jobs, CheckKey(item), VersionOf(cleared, item), at, at)) else cleared)
  {
    hide ChangeStatus, SetCleared, Schedule;
  }

  lemma ApproveShows(db: Db, item: Item, at: int)
    requires ContentOk(db) && Exists(db, item) && !Gone(StatusOf(db, item))
    ensures var changed := ChangeStatus(db, item, Visible, at);
            && changed.Some? && Exists(changed.value, item)
            && var cleared := SetCleared(changed.value, item);
               && cleared.side == db.side && ChecksStay(db.jobs, cleared.jobs) && Exists(cleared, item)
               && Becomes(db, cleared, item, Visible, PurgeOf(db, item), true)
               && var r := cleared.(jobs := Schedule(cleared.jobs, CheckKey(item), VersionOf(cleared, item), at, at));
                  Becomes(db, r, item, Visible, PurgeOf(db, item), true) &&
                  CheckQueued(db.jobs, r.jobs, CheckKey(item), VersionOf(db, item))
  {
    ChangeStatusDoes(db, item, Visible, at);
    hide ContentOk, ChangeStatus, Becomes;
    var changed := ChangeStatus(db, item, Visible, at).value;
    ThenCleared(db, changed, item, Visible, PurgeOf(db, item));
    var cleared := SetCleared(changed, item);
    hide SetCleared, CheckQueued, ChecksStay, Schedule, VersionOf, PurgeOf, Cleared, StatusOf;
    AlsoQueued(db.jobs, cleared.jobs, CheckKey(item), VersionOf(cleared, item), at);
    ClearedToo(db, cleared, cleared.(jobs := Schedule(cleared.jobs, CheckKey(item), VersionOf(cleared, item), at, at)),
               item);
  }

  ghost predicate ChecksStay(was: Queue, now: Queue) {
    forall k: JobKey | k.kind == Check || k.kind == CheckComment :: Find(now, k) == Find(was, k)
  }

  lemma ClearedToo(db: Db, r: Db, r': Db, item: Item)
    requires Exists(db, item) && Becomes(db, r, item, Visible, PurgeOf(db, item), true)
    requires r'.posts == r.posts && r'.comments == r.comments
    ensures Becomes(db, r', item, Visible, PurgeOf(db, item), true)
  {
  }

  lemma ThenCleared(db: Db, r: Db, item: Item, to: Status, purge: Option<int>)
    requires Exists(db, item) && Becomes(db, r, item, to, purge, Cleared(db, item))
    ensures Exists(r, item) && Becomes(db, SetCleared(r, item), item, to, purge, true)
    ensures Exists(SetCleared(r, item), item) && VersionOf(SetCleared(r, item), item) == VersionOf(db, item)
    ensures SetCleared(r, item).side == r.side && SetCleared(r, item).jobs == r.jobs
  {
    if item.kind == APost {
    } else {
    }
  }

  /** A member may report what is another's; it is flagged if it was visible and not cleared for good, and
      checked again. */
  lemma ReportDoes(db: Db, item: Item, user: Id, at: int)
    requires ContentOk(db)
    ensures var r := Report(db, item, user, at);
            && (r.None? <==> !Active(db, user) || !Exists(db, item) || AuthorOf(db, item) == user)
            && (r.Some? ==>
                  && Becomes(db, r.value, item,
                             if StatusOf(db, item) == Visible && !Cleared(db, item) then Flagged
                             else StatusOf(db, item),
                             PurgeOf(db, item), Cleared(db, item))
                  && r.value.side == db.side.(reports := db.side.reports + {(item, user)})
                  && CheckQueued(db.jobs, r.value.jobs, CheckKey(item), VersionOf(db, item)))
  {
    if Exists(db, item) {
      ReportFlags(db, item, user, at);
      ReportIs(db, item, user, at);
      hide Report, ContentOk, ChangeStatus, Becomes, StatusOf, Cleared, PurgeOf, VersionOf, CheckKey, CheckQueued,
        AuthorOf, Schedule, Exists;
    }
  }

  lemma ReportIs(db: Db, item: Item, user: Id, at: int)
    requires Exists(db, item)
    ensures var reported := db.(side := db.side.(reports := db.side.reports + {(item, user)}));
            var flags := StatusOf(db, item) == Visible && !Cleared(db, item);
            var flagged := if flags then ChangeStatus(reported, item, Flagged, at) else Some(reported);
            Report(db, item, user, at) ==
            if !Active(db, user) || AuthorOf(db, item) == user || flagged.None? then None
            else Some(flagged.value.(jobs := Schedule(flagged.value.jobs, CheckKey(item), VersionOf(db, item), at, at)))
  {
    hide ChangeStatus, Schedule, VersionOf;
  }

  /** What a report, if it is let through, leaves. */
  lemma ReportFlags(db: Db, item: Item, user: Id, at: int)
    requires ContentOk(db) && Exists(db, item)
    ensures var reported := db.(side := db.side.(reports := db.side.reports + {(item, user)}));
            var to := if StatusOf(db, item) == Visible && !Cleared(db, item) then Flagged else StatusOf(db, item);
            var flagged := if to != StatusOf(db, item) then ChangeStatus(reported, item, Flagged, at)
                           else Some(reported);
            && flagged.Some?
            && var r := flagged.value.(jobs := Schedule(flagged.value.jobs, CheckKey(item), VersionOf(db, item), at, at));
               Becomes(db, r, item, to, PurgeOf(db, item), Cleared(db, item)) && r.side == reported.side &&
               CheckQueued(db.jobs, r.jobs, CheckKey(item), VersionOf(db, item))
  {
    var reported := db.(side := db.side.(reports := db.side.reports + {(item, user)}));
    var was := StatusOf(db, item);
    if was == Visible && !Cleared(db, item) {
      FlaggedDoes(db, reported.side, item, at);
      var flagged := ChangeStatus(reported, item, Flagged, at).value;
      hide ContentOk, ChangeStatus, Becomes, Schedule, StatusOf, Cleared, PurgeOf, VersionOf, CheckQueued, ChecksStay;
      ThenChecked(db, flagged, item, Flagged, at);
    } else {
      UnreadBecomes(db, reported, item);
      hide ContentOk, ChangeStatus, Becomes, Schedule, StatusOf, Cleared, PurgeOf, VersionOf, CheckQueued;
      ThenChecked(db, reported, item, was, at);
    }
  }

  lemma FlaggedDoes(db: Db, side: Side, item: Item, at: int)
    requires ContentOk(db) && Exists(db, item)
    ensures var r := ChangeStatus(db.(side := side), item, Flagged, at);
            && r.Some? && r.value.side == side && ChecksStay(db.jobs, r.value.jobs)
            && Becomes(db, r.value, item, Flagged, PurgeOf(db, item), Cleared(db, item))
  {
    SideDoesNotMatter(db, side);
    SameItem(db, side, item);
    hide ContentOk, ChangeStatus, Becomes;
    ChangeStatusDoes(db.(side := side), item, Flagged, at);
    SideBecomes(db, side, ChangeStatus(db.(side := side), item, Flagged, at).value, item, Flagged);
  }

  /** An item's check queued after all else. */
  lemma ThenChecked(db: Db, r: Db, item: Item, to: Status, at: int)
    requires Exists(db, item) && Becomes(db, r, item, to, PurgeOf(db, item), Cleared(db, item)) &&
             ChecksStay(db.jobs, r.jobs)
    ensures var r' := r.(jobs := Schedule(r.jobs, CheckKey(item), VersionOf(db, item), at, at));
            Becomes(db, r', item, to, PurgeOf(db, item), Cleared(db, item)) &&
            CheckQueued(db.jobs, r'.jobs, CheckKey(item), VersionOf(db, item))
  {
    AlsoQueued(db.jobs, r.jobs, CheckKey(item), VersionOf(db, item), at);
    hide CheckQueued, Schedule, ChecksStay;
    UnreadBecomesToo(db, r, r.(jobs := Schedule(r.jobs, CheckKey(item), VersionOf(db, item), at, at)), item, to);
  }

  lemma SameItem(db: Db, side: Side, item: Item)
    requires Exists(db, item)
    ensures var put := db.(side := side);
            Exists(put, item) && StatusOf(put, item) == StatusOf(db, item) && Cleared(put, item) == Cleared(db, item) &&
            PurgeOf(put, item) == PurgeOf(db, item) && VersionOf(put, item) == VersionOf(db, item)
  {
  }

  lemma UnreadBecomes(db: Db, r: Db, item: Item)
    requires Exists(db, item) && r.posts == db.posts && r.comments == db.comments
    ensures Becomes(db, r, item, StatusOf(db, item), PurgeOf(db, item), Cleared(db, item))
  {
    SameStatus(db, item);
  }

  lemma UnreadBecomesToo(db: Db, r: Db, r': Db, item: Item, to: Status)
    requires Exists(db, item) && Becomes(db, r, item, to, PurgeOf(db, item), Cleared(db, item))
    requires r'.posts == r.posts && r'.comments == r.comments
    ensures Becomes(db, r', item, to, PurgeOf(db, item), Cleared(db, item))
  {
  }

  lemma AlsoQueued(was: Queue, put: Queue, k: JobKey, version: nat, at: int)
    requires k.kind == Check || k.kind == CheckComment
    requires ChecksStay(was, put)
    ensures CheckQueued(was, Schedule(put, k, version, at, at), k, version)
  {
  }

  lemma SideBecomes(db: Db, side: Side, r: Db, item: Item, to: Status)
    requires Exists(db, item) && var put := db.(side := side); Becomes(put, r, item, to, PurgeOf(put, item), Cleared(put, item))
    ensures Becomes(db, r, item, to, PurgeOf(db, item), Cleared(db, item))
  {
  }

  // ---- The members' vote ----

  /** Those who voted this way, by the votes as they are stored. */
  function Voters(votes: map<(Item, Id), bool>, item: Item, keep: bool): set<Id> {
    set v | v in votes && v.0 == item && votes[v] == keep :: v.1
  }

  lemma {:induction false} AsMany(ballots: set<(Item, Id)>, voters: set<Id>, item: Item)
    requires forall v <- ballots :: v.0 == item
    requires voters == set v | v in ballots :: v.1
    ensures |ballots| == |voters|
  {
    if v :| v in ballots {
      AsMany(ballots - {v}, voters - {v.1}, item);
    }
  }

  lemma BallotsAre(side: Side, item: Item, keep: bool)
    ensures |Ballots(side, item, keep)| == |Voters(side.flagVotes, item, keep)|
  {
    assert forall v <- Ballots(side, item, keep) :: side.flagVotes[v] == keep;
    AsMany(Ballots(side, item, keep), Voters(side.flagVotes, item, keep), item);
  }

  /** Who may vote on an item: an active member of 30 days with something shown, who neither wrote it, nor
      wrote what it replies to, nor replied to it. */
  ghost predicate MayVote(db: Db, item: Item, user: Id, at: int)
    requires Exists(db, item)
  {
    && Active(db, user) && db.members[user].since + 30 * 86400 <= at && AuthorOf(db, item) != user && Known(db, user)
    && (item.kind == AComment ==>
          && (match db.comments[item.id].parent
              case Some(top) => top !in db.comments || db.comments[top].user != user
              case None => true)
          && forall c <- db.comments :: db.comments[c].parent == Some(item.id) ==> db.comments[c].user != user)
  }

  lemma VoteRefusedIff(db: Db, item: Item, user: Id, keep: bool, at: int)
    requires ContentOk(db)
    ensures Vote(db, item, user, keep, at).None? <==>
            !Exists(db, item) || StatusOf(db, item) != Flagged || !MayVote(db, item, user, at)
  {
    if Exists(db, item) && StatusOf(db, item) == Flagged {
      MayVoteIs(db, item, user, at);
      hide CanVote, MayVote, ContentOk;
      if CanVote(db, item, user, at) { VoteDecided(db, item, user, keep, at); }
    }
  }

  lemma MayVoteIs(db: Db, item: Item, user: Id, at: int)
    requires Exists(db, item)
    ensures CanVote(db, item, user, at) <==> MayVote(db, item, user, at)
  {
    ShownIsKnown(db, user);
    hide HasShownContent, Known;
  }

  lemma VoteIs(db: Db, item: Item, user: Id, keep: bool, at: int)
    requires Exists(db, item) && StatusOf(db, item) == Flagged && CanVote(db, item, user, at)
    ensures var votes := db.side.flagVotes[(item, user) := keep];
            var voted := db.(side := db.side.(flagVotes := votes));
            var hides, keeps := |Voters(votes, item, false)|, |Voters(votes, item, true)|;
            var hidden, shown := ChangeStatus(voted, item, AutoHidden, at), ChangeStatus(voted, item, Visible, at);
            Vote(db, item, user, keep, at) ==
            if hides >= db.voteThreshold && hides > keeps then hidden
            else if keeps < db.voteThreshold then Some(voted)
            else if shown.Some? && Exists(shown.value, item) then Some(SetCleared(shown.value, item)) else None
  {
    var voted := db.(side := db.side.(flagVotes := db.side.flagVotes[(item, user) := keep]));
    BallotsAre(voted.side, item, true);
    BallotsAre(voted.side, item, false);
    hide ChangeStatus, CanVote, Ballots, Voters, SetCleared;
  }

  /** Main result. The stored vote is the one cast; with it counted, enough votes to hide, and more than to
      keep, hide the item; otherwise enough to keep show it and clear it for good; otherwise it stays. */
  lemma VoteDecided(db: Db, item: Item, user: Id, keep: bool, at: int)
    requires ContentOk(db) && Exists(db, item) && StatusOf(db, item) == Flagged && CanVote(db, item, user, at)
    ensures var r, votes := Vote(db, item, user, keep, at), db.side.flagVotes[(item, user) := keep];
            var hides, keeps := |Voters(votes, item, false)|, |Voters(votes, item, true)|;
            && r.Some? && r.value.side == db.side.(flagVotes := votes)
            && if hides >= db.voteThreshold && hides > keeps
               then Becomes(db, r.value, item, AutoHidden, PurgeOf(db, item), Cleared(db, item))
               else if keeps >= db.voteThreshold then Becomes(db, r.value, item, Visible, PurgeOf(db, item), true)
               else Becomes(db, r.value, item, Flagged, PurgeOf(db, item), Cleared(db, item))
  {
    var voted := db.(side := db.side.(flagVotes := db.side.flagVotes[(item, user) := keep]));
    VoteIs(db, item, user, keep, at);
    UnreadBecomes(db, voted, item);
    SideDoesNotMatter(db, voted.side);
    SameItem(db, voted.side, item);
    hide Vote, ContentOk, ChangeStatus, Becomes, CanVote, Voters;
    ChangeStatusDoes(voted, item, AutoHidden, at);
    ChangeStatusDoes(voted, item, Visible, at);
    var shown := ChangeStatus(voted, item, Visible, at).value;
    SideBecomes(db, voted.side, ChangeStatus(voted, item, AutoHidden, at).value, item, AutoHidden);
    SideBecomes(db, voted.side, shown, item, Visible);
    ThenCleared(db, shown, item, Visible, PurgeOf(db, item));
    hide SetCleared, StatusOf, Cleared, PurgeOf;
  }
}
