/**
 The search index row by row: every shown post and comment has its row, under its own post.
 The one command that takes rows away from shown items is RequestArchiveRemoval, so what holds
 in general is that rows that exist are rightly placed; "full" adds that none is missing.
 */
module Index {
  import opened Types
  import opened Jobs
  import opened Tables
  import opened Commands
  import opened Content
  import opened Archive
  import opened Telling

  predicate PostIndexed(posts: Posts, fts: map<Id, Id>, p: Id, full: bool)
    requires p in posts
  {
    full && Shown(posts[p].status) ==> p in fts
  }

  predicate CommentIndexed(comments: Comments, fts: map<Id, Id>, c: Id, full: bool)
    requires c in comments
  {
    && (c in fts ==> fts[c] == comments[c].post)
    && (full && Shown(comments[c].status) ==> c in fts)
  }

  ghost predicate Indexed(posts: Posts, comments: Comments, fts: map<Id, Id>, full: bool) {
    && (forall p {:trigger PostIndexed(posts, fts, p, full)} | p in posts :: PostIndexed(posts, fts, p, full))
    && (forall c {:trigger CommentIndexed(comments, fts, c, full)} | c in comments :: CommentIndexed(comments, fts, c, full))
  }

  ghost predicate IndexedDb(db: Db, full: bool) { Indexed(db.posts, db.comments, db.fts, full) }

  /** Together with IndexSound: the index is exactly the shown items, each under its own post. */
  lemma FullIndexIsExact(db: Db, i: Id)
    requires ContentOk(db) && IndexedDb(db, true) && (i in db.posts || i in db.comments)
    ensures i in db.fts <==> if i in db.posts then Shown(db.posts[i].status) else Shown(db.comments[i].status)
    ensures i in db.fts ==> db.fts[i] == if i in db.posts then i else db.comments[i].post
  {
    if i in db.fts { assert RowRight(db.posts, db.comments, i, db.fts[i]); }
    if i in db.posts {
      assert PostIndexed(db.posts, db.fts, i, true);
    } else {
      assert CommentIndexed(db.comments, db.fts, i, true);
    }
  }

  /** Only one id's rows differ, and they are right. */
  lemma IndexedExcept(posts: Posts, comments: Comments, fts: map<Id, Id>,
                      posts': Posts, comments': Comments, fts': map<Id, Id>, id: Id, full: bool)
    requires Indexed(posts, comments, fts, full)
    requires forall i :: i != id ==> (i in fts <==> i in fts') && (i in fts ==> fts'[i] == fts[i])
    requires forall p <- posts' :: p != id ==> p in posts && posts'[p].status == posts[p].status
    requires forall c <- comments' :: c != id ==>
               c in comments && comments'[c].status == comments[c].status && comments'[c].post == comments[c].post
    requires id in posts' ==> PostIndexed(posts', fts', id, full)
    requires id in comments' ==> CommentIndexed(comments', fts', id, full)
    ensures Indexed(posts', comments', fts', full)
  {
    forall p | p in posts' ensures PostIndexed(posts', fts', p, full) {
      if p != id { assert PostIndexed(posts, fts, p, full); }
    }
    forall c | c in comments' ensures CommentIndexed(comments', fts', c, full) {
      if c != id { assert CommentIndexed(comments, fts, c, full); }
    }
  }

  /** It depends on nothing but what is shown where. */
  lemma IndexedStays(a: Db, b: Db, full: bool)
    requires IndexedDb(a, full) && SameShown(a, b)
    ensures IndexedDb(b, full)
  {
    forall p | p in b.posts ensures PostIndexed(b.posts, b.fts, p, full) {
      assert PostIndexed(a.posts, a.fts, p, full);
    }
    forall c | c in b.comments ensures CommentIndexed(b.comments, b.fts, c, full) {
      assert CommentIndexed(a.comments, a.fts, c, full);
    }
  }

  lemma SameContentIndexed(a: Db, b: Db, full: bool)
    requires IndexedDb(a, full) && SameContent(a, b)
    ensures IndexedDb(b, full)
  {
    hide Indexed;
    assert forall p <- a.posts :: SameRow(a.posts[p], b.posts[p]);
    IndexedStays(a, b, full);
  }

  /** A post's row and its index row together. */
  lemma PutPostIndexed(db: Db, db': Db, id: Id, p: Post, full: bool)
    requires IndexedDb(db, full) && db'.posts == db.posts[id := p] && db'.comments == db.comments && id !in db.comments
    requires db'.fts == (if Shown(p.status) then db.fts[id := id] else db.fts - {id}) ||
             (db'.fts == db.fts && (Shown(p.status) ==> id in db.posts && Shown(db.posts[id].status)))
    ensures IndexedDb(db', full)
  {
    if id in db.posts { assert PostIndexed(db.posts, db.fts, id, full); }
    IndexedExcept(db.posts, db.comments, db.fts, db'.posts, db'.comments, db'.fts, id, full);
  }

  /** A comment's row and its index row together; of posts, only counters move. */
  lemma PutCommentIndexedToo(db: Db, db': Db, id: Id, c: Comment, full: bool)
    requires IndexedDb(db, full) && db'.comments == db.comments[id := c] && id !in db.posts
    requires id in db.comments ==> c.post == db.comments[id].post
    requires db'.posts.Keys == db.posts.Keys && forall p <- db.posts :: db'.posts[p].status == db.posts[p].status
    requires db'.fts == (if Shown(c.status) then db.fts[id := c.post] else db.fts - {id}) ||
             (db'.fts == db.fts && id in db.comments && (Shown(c.status) ==> Shown(db.comments[id].status)))
    ensures IndexedDb(db', full)
  {
    if id in db.comments { assert CommentIndexed(db.comments, db.fts, id, full); }
    IndexedExcept(db.posts, db.comments, db.fts, db'.posts, db'.comments, db'.fts, id, full);
  }

  // ---- Command by command ----

  lemma RestatusIndexed(db: Db, item: Item, to: Status, purge: Option<int>, full: bool)
    requires IndexedDb(db, full) && Exists(db, item) && ThreadOf(db, item) in db.posts &&
             db.posts.Keys !! db.comments.Keys
    ensures IndexedDb(Restatus(db, item, to, purge), full)
  {
    hide Indexed;
    if item.kind == APost {
      PutPostIndexed(db, Restatus(db, item, to, purge), item.id, db.posts[item.id].(status := to, purgeAfter := purge),
                     full);
    } else {
      PutCommentIndexedToo(db, Restatus(db, item, to, purge), item.id,
                           db.comments[item.id].(status := to, purgeAfter := purge), full);
    }
  }

  lemma ChangeStatusIndexed(db: Db, item: Item, to: Status, at: int, full: bool)
    requires ContentOk(db) && IndexedDb(db, full) && Exists(db, item) && ChangeStatus(db, item, to, at).Some?
    ensures IndexedDb(ChangeStatus(db, item, to, at).value, full)
  {
    ItemFacts(db, item);
    if StatusOf(db, item) != to {
      RestatusIndexed(db, item, to, PurgeOf(db, item), full);
      hide IndexedDb, SameContent, ThreadChanged, Restatus, ContentOk;
      ChangeStatusIs(db, item, to, at);
      ThreadChangedSame(Restatus(db, item, to, PurgeOf(db, item)), ThreadOf(db, item), at);
      SameContentIndexed(Restatus(db, item, to, PurgeOf(db, item)), ChangeStatus(db, item, to, at).value, full);
    }
  }

  lemma AfterwardsIndexed(db: Db, item: Item, to: Status, purge: Option<int>, at: int, full: bool)
    requires ContentOk(db) && IndexedDb(db, full) && Exists(db, item) && ThreadOf(db, item) in db.posts
    ensures Afterwards(db, item, to, purge, at).Some? && IndexedDb(Afterwards(db, item, to, purge, at).value, full)
  {
    ItemFacts(db, item);
    RestatusIndexed(db, item, to, purge, full);
    hide IndexedDb, SameContent, Afterwards, Restatus, ContentOk;
    AfterwardsSame(db, item, to, purge, at);
    SameContentIndexed(Restatus(db, item, to, purge), Afterwards(db, item, to, purge, at).value, full);
  }

  lemma SoftDeleteIndexed(db: Db, item: Item, byMod: bool, at: int, full: bool)
    requires ContentOk(db) && IndexedDb(db, full) && SoftDelete(db, item, byMod, at).Some?
    ensures IndexedDb(SoftDelete(db, item, byMod, at).value, full)
  {
    hide ContentOk, IndexedDb, ThreadChanged;
    ItemFacts(db, item);
    if !Gone(StatusOf(db, item)) {
      var keep := if byMod then MOD_REMOVE_KEEP else AUTHOR_DELETE_KEEP;
      SoftDeleteIs(db, item, byMod, at);
      hide SoftDelete, Afterwards;
      AfterwardsIndexed(db, item, if byMod then Removed else Deleted, Some(at + keep), at, full);
    }
  }

  lemma SoftDeleteIs(db: Db, item: Item, byMod: bool, at: int)
    requires Exists(db, item) && !Gone(StatusOf(db, item)) && ThreadOf(db, item) in db.posts
    ensures SoftDelete(db, item, byMod, at) ==
            Afterwards(db, item, if byMod then Removed else Deleted,
                       Some(at + if byMod then MOD_REMOVE_KEEP else AUTHOR_DELETE_KEEP), at)
  {
  }

  lemma RestoreIndexed(db: Db, item: Item, at: int, full: bool)
    requires ContentOk(db) && IndexedDb(db, full) && Restore(db, item, at).Some?
    ensures IndexedDb(Restore(db, item, at).value, full)
  {
    hide ContentOk, IndexedDb, ThreadChanged;
    ItemFacts(db, item);
    if StatusOf(db, item) != Visible {
      AfterwardsIndexed(db, item, Visible, None, at, full);
    }
  }

  /** The same items are shown, in the same threads. */
  ghost predicate SameShown(a: Db, b: Db) {
    && a.posts.Keys == b.posts.Keys && a.comments.Keys == b.comments.Keys && b.fts == a.fts
    && (forall p <- a.posts :: b.posts[p].status == a.posts[p].status)
    && (forall c <- a.comments :: b.comments[c].status == a.comments[c].status && b.comments[c].post == a.comments[c].post)
  }

  lemma ClearedShows(db: Db, item: Item)
    requires Exists(db, item)
    ensures SameShown(db, SetCleared(db, item))
  {
    if item.kind == APost {
    } else {
    }
  }

  lemma SetClearedIndexed(db: Db, item: Item, full: bool)
    requires IndexedDb(db, full) && Exists(db, item)
    ensures IndexedDb(SetCleared(db, item), full)
  {
    ClearedShows(db, item);
    hide IndexedDb, SetCleared;
    IndexedStays(db, SetCleared(db, item), full);
  }

  lemma CreatePostIndexed(db: Db, id: Id, user: Id, title: string, body: string, images: seq<Id>, at: int, full: bool)
    requires FreshId(db, id) && IndexedDb(db, full) && CreatePost(db, id, user, title, body, images, at).Some?
    ensures IndexedDb(CreatePost(db, id, user, title, body, images, at).value, full)
  {
    hide IndexedDb, Schedule, WithImages, FreshImages, HasShownContent, IsMember;
    var r := CreatePost(db, id, user, title, body, images, at).value;
    PutPostIndexed(db, r, id, r.posts[id], full);
  }

  lemma EditPostIndexed(db: Db, id: Id, title: string, body: string, at: int, full: bool)
    requires ContentOk(db) && IndexedDb(db, full) && EditPost(db, id, title, body, at).Some?
    ensures IndexedDb(EditPost(db, id, title, body, at).value, full)
  {
    ItemFacts(db, Item(APost, id));
    assert id !in db.comments;
    hide IndexedDb, SameContent, PostEdited, SaveRevision, ContentOk;
    EditPostIs(db, id, title, body, at);
    PutPostIndexed(db, Edited(db, id, title, body), id, Edited(db, id, title, body).posts[id], full);
    SameContentIndexed(Edited(db, id, title, body), EditPost(db, id, title, body, at).value, full);
  }

  lemma CommentToldIndexed(db: Db, put: Db, id: Id, c: Comment, fts: map<Id, Id>, at: int, full: bool)
    requires IndexedDb(db, full) && put.comments == db.comments[id := c] && id !in db.posts && put.fts == db.fts
    requires id in db.comments ==> c.post == db.comments[id].post
    requires put.posts.Keys == db.posts.Keys && forall p <- db.posts :: put.posts[p].status == db.posts[p].status
    requires fts == (if Shown(c.status) then db.fts[id := c.post] else db.fts - {id}) ||
             (fts == db.fts && id in db.comments && (Shown(c.status) ==> Shown(db.comments[id].status)))
    requires ThreadChanged(put, c.post, at).Some?
    ensures ThreadChanged(put, c.post, at).value.fts == db.fts
    ensures IndexedDb(ThreadChanged(put, c.post, at).value.(fts := fts), full)
  {
    hide IndexedDb, SameContent, ThreadChanged;
    PutCommentIndexedToo(db, put.(fts := fts), id, c, full);
    ThreadChangedSame(put, c.post, at);
    var told := ThreadChanged(put, c.post, at).value;
    SameContentIndex(put, told, fts);
    SameContentIndexed(put.(fts := fts), told.(fts := fts), full);
  }

  lemma CreateCommentIndexed(db: Db, id: Id, post: Id, parent: Id, user: Id, body: string, image: Option<Id>, at: int,
                             full: bool)
    requires FreshId(db, id) && IndexedDb(db, full) && CreateComment(db, id, post, parent, user, body, image, at).Some?
    ensures IndexedDb(CreateComment(db, id, post, parent, user, body, image, at).value, full)
  {
    hide ThreadChanged, ReplyParent, FreshImages, WithImages, IsMember, Schedule, IndexedDb;
    var images := if image.Some? then [image.value] else [];
    var c := Comment(post, ReplyParent(db, post, parent).value, user, body, Visible, None, 1, false, None);
    var put := AddCount(db.(comments := db.comments[id := c], side := WithImages(db.side, post, Some(id), images)), post, 1);
    var told := ThreadChanged(put, post, at).value;
    assert CreateComment(db, id, post, parent, user, body, image, at).value ==
           told.(jobs := Schedule(told.jobs, JobKey(CheckComment, id), 1, at, at), fts := told.fts[id := post]);
    hide CreateComment;
    CommentToldIndexed(db, put, id, c, db.fts[id := post], at, full);
    IndexedIgnoresJobs(told.(fts := db.fts[id := post]),
                       told.(jobs := Schedule(told.jobs, JobKey(CheckComment, id), 1, at, at),
                             fts := told.fts[id := post]), full);
  }

  lemma IndexedIgnoresJobs(a: Db, b: Db, full: bool)
    requires IndexedDb(a, full) && b.posts == a.posts && b.comments == a.comments && b.fts == a.fts
    ensures IndexedDb(b, full)
  {
  }

  lemma EditCommentIndexed(db: Db, id: Id, body: string, at: int, full: bool)
    requires ContentOk(db) && IndexedDb(db, full) && EditComment(db, id, body, at).Some?
    ensures IndexedDb(EditComment(db, id, body, at).value, full)
  {
    hide ContentOk, ThreadChanged, SameContent, SaveRevision, Rewritten, IndexedDb;
    CommentNotPost(db, id);
    EditCommentIs(db, id, body, at);
    hide EditComment;
    SavedIs(db, Item(AComment, id), at);
    var c := db.comments[id];
    var put := Rewritten(SaveRevision(db, Item(AComment, id), at).value, id, body, at);
    RewrittenIs(SaveRevision(db, Item(AComment, id), at).value, id, body, at);
    CommentToldIndexed(db, put, id, put.comments[id], if Shown(c.status) then db.fts[id := c.post] else db.fts, at,
                       full);
    var told := ThreadChanged(put, c.post, at).value;
    IndexedIgnoresJobs(told.(fts := if Shown(c.status) then db.fts[id := c.post] else db.fts),
                       EditComment(db, id, body, at).value, full);
  }

  lemma CommentNotPost(db: Db, id: Id)
    requires ContentOk(db) && id in db.comments
    ensures id !in db.posts
  {
  }

  lemma ThreadChangedIndexed(db: Db, x: Id, at: int, full: bool)
    requires IndexedDb(db, full) && ThreadChanged(db, x, at).Some?
    ensures IndexedDb(ThreadChanged(db, x, at).value, full)
  {
    hide IndexedDb, ThreadChanged, SameContent;
    ThreadChangedSame(db, x, at);
    SameContentIndexed(db, ThreadChanged(db, x, at).value, full);
  }

  lemma RelinkIndexed(db: Db, id: Id, link: Option<Id>, full: bool)
    requires IndexedDb(db, full) && id in db.posts
    ensures IndexedDb(db.(posts := db.posts[id := db.posts[id].(continues := link)]), full)
  {
    hide IndexedDb;
    IndexedStays(db, db.(posts := db.posts[id := db.posts[id].(continues := link)]), full);
  }

  lemma MoveUnderIndexed(db: Db, id: Id, under: Id, at: int, full: bool)
    requires IndexedDb(db, full) && MoveUnder(db, id, under, at).Some?
    ensures IndexedDb(MoveUnder(db, id, under, at).value, full)
  {
    hide IndexedDb, ThreadChanged;
    RelinkIndexed(db, id, Some(under), full);
    ThreadChangedIndexed(db.(posts := db.posts[id := db.posts[id].(continues := Some(under))]), id, at, full);
  }

  lemma MoveOutIndexed(db: Db, id: Id, at: int, full: bool)
    requires IndexedDb(db, full) && MoveOut(db, id, at).Some?
    ensures IndexedDb(MoveOut(db, id, at).value, full)
  {
    hide IndexedDb, ThreadChanged;
    if db.posts[id].continues.Some? {
      ThreadChangedIndexed(db, id, at, full);
      RelinkIndexed(ThreadChanged(db, id, at).value, id, None, full);
    }
  }

  lemma ApplyVerdictIndexed(db: Db, item: Item, verdict: Verdict, at: int, full: bool)
    requires ContentOk(db) && IndexedDb(db, full) && ApplyVerdict(db, item, verdict, at).Some?
    ensures IndexedDb(ApplyVerdict(db, item, verdict, at).value, full)
  {
    hide ContentOk, IndexedDb, ChangeStatus;
    if Exists(db, item) && verdict != Fine && !Cleared(db, item) && Shown(StatusOf(db, item)) {
      var to := if verdict == Violation then AutoHidden else Flagged;
      if StatusOf(db, item) != to { ChangeStatusIndexed(db, item, to, at, full); }
    }
  }

  lemma SetCommentCheckIndexed(db: Db, id: Id, worker: string, version: nat, verdict: Verdict, at: int, full: bool)
    requires ContentOk(db) && IndexedDb(db, full) && SetCommentCheck(db, id, worker, version, verdict, at).Some?
    ensures IndexedDb(SetCommentCheck(db, id, worker, version, verdict, at).value, full)
  {
    hide ContentOk, IndexedDb, ApplyVerdict, Finish, Accepts;
    var finished := db.(jobs := Finish(db.jobs, JobKey(CheckComment, id), worker, version, db.comments[id].version, at));
    JobsDoNotMatter(db, finished);
    IndexedIgnoresJobs(db, finished, full);
    if Accepts(db.jobs, JobKey(CheckComment, id), worker, version, db.comments[id].version) {
      ApplyVerdictIndexed(finished, Item(AComment, id), verdict, at, full);
    }
  }

  lemma SetCheckIndexed(db: Db, id: Id, worker: string, version: nat, verdict: Verdict, links: seq<CheckLink>, at: int,
                        full: bool)
    requires ContentOk(db) && IndexedDb(db, full) && SetCheck(db, id, worker, version, verdict, links, at).Some?
    ensures IndexedDb(SetCheck(db, id, worker, version, verdict, links, at).value, full)
  {
    hide ContentOk, IndexedDb, ApplyVerdict, Finish, Accepts, AddLinks, SameContent;
    var finished := db.(jobs := Finish(db.jobs, JobKey(Check, id), worker, version, db.posts[id].version, at));
    JobsDoNotMatter(db, finished);
    IndexedIgnoresJobs(db, finished, full);
    if Accepts(db.jobs, JobKey(Check, id), worker, version, db.posts[id].version) {
      ApplyVerdictIndexed(finished, Item(APost, id), verdict, at, full);
      var judged := ApplyVerdict(finished, Item(APost, id), verdict, at).value;
      if verdict != Violation && Shown(db.posts[id].status) {
        AddLinksSame(judged, id, links, at);
        SameContentIndexed(judged, AddLinks(judged, id, links, at).value, full);
      }
    }
  }

  lemma ApproveIndexed(db: Db, item: Item, at: int, full: bool)
    requires ContentOk(db) && IndexedDb(db, full) && Approve(db, item, at).Some?
    ensures IndexedDb(Approve(db, item, at).value, full)
  {
    hide ContentOk, IndexedDb, ChangeStatus, SetCleared, Schedule, VersionOf;
    ChangeStatusIndexed(db, item, Visible, at, full);
    SetClearedIndexed(ChangeStatus(db, item, Visible, at).value, item, full);
    IndexedIgnoresJobs(SetCleared(ChangeStatus(db, item, Visible, at).value, item), Approve(db, item, at).value, full);
  }

  lemma ReportIndexed(db: Db, item: Item, user: Id, at: int, full: bool)
    requires ContentOk(db) && IndexedDb(db, full) && Report(db, item, user, at).Some?
    ensures IndexedDb(Report(db, item, user, at).value, full)
  {
    hide ContentOk, IndexedDb, ChangeStatus, Schedule, VersionOf, IsMember;
    var reported := db.(side := db.side.(reports := db.side.reports + {(item, user)}));
    SideDoesNotMatter(db, reported.side);
    IndexedIgnoresJobs(db, reported, full);
    if StatusOf(db, item) == Visible && !Cleared(db, item) {
      ChangeStatusIndexed(reported, item, Flagged, at, full);
      IndexedIgnoresJobs(ChangeStatus(reported, item, Flagged, at).value, Report(db, item, user, at).value, full);
    } else {
      IndexedIgnoresJobs(reported, Report(db, item, user, at).value, full);
    }
  }

  lemma VoteIndexed(db: Db, item: Item, user: Id, keep: bool, at: int, full: bool)
    requires ContentOk(db) && IndexedDb(db, full) && Vote(db, item, user, keep, at).Some?
    ensures IndexedDb(Vote(db, item, user, keep, at).value, full)
  {
    hide ContentOk, IndexedDb, ChangeStatus, SetCleared, CanVote, Ballots;
    var voted := db.(side := db.side.(flagVotes := db.side.flagVotes[(item, user) := keep]));
    SideDoesNotMatter(db, voted.side);
    IndexedIgnoresJobs(db, voted, full);
    var keeps, hides := |Ballots(voted.side, item, true)|, |Ballots(voted.side, item, false)|;
    if hides >= db.voteThreshold && hides > keeps {
      ChangeStatusIndexed(voted, item, AutoHidden, at, full);
    } else if keeps >= db.voteThreshold {
      ChangeStatusIndexed(voted, item, Visible, at, full);
      SetClearedIndexed(ChangeStatus(voted, item, Visible, at).value, item, full);
    }
  }

  // ---- Removal requests ----

  lemma TakenDownIndexed(db: Db, id: Id, at: int)
    requires IndexedDb(db, false) && id in db.posts
    ensures IndexedDb(TakenDown(db, id, at), false)
  {
    var db' := TakenDown(db, id, at);
    forall c | c in db'.comments ensures CommentIndexed(db'.comments, db'.fts, c, false) {
      assert CommentIndexed(db.comments, db.fts, c, false);
    }
  }

  lemma RequestArchiveRemovalIndexed(db: Db, id: Id, at: int)
    requires IndexedDb(db, false) && RequestArchiveRemoval(db, id, at).Some?
    ensures IndexedDb(RequestArchiveRemoval(db, id, at).value, false)
  {
    hide IndexedDb, ThreadChanged;
    if !Gone(db.posts[id].status) {
      TakenDownIndexed(db, id, at);
      ThreadChangedIndexed(TakenDown(db, id, at), id, at, false);
    }
  }

  lemma TakenDownFull(db: Db, id: Id, at: int)
    requires ContentOk(db) && IndexedDb(db, true) && id in db.posts
    ensures IndexedDb(TakenDown(db, id, at), true) <==> ShownComments(db.comments, id) == {}
  {
    hide ContentOk;
    var db' := TakenDown(db, id, at);
    if c :| c in ShownComments(db.comments, id) {
      assert CommentIndexed(db.comments, db.fts, c, true);
      assert !CommentIndexed(db'.comments, db'.fts, c, true);
    } else {
      OthersStayIndexed(db, id, at);
    }
  }

  lemma OthersStayIndexed(db: Db, id: Id, at: int)
    requires ContentOk(db) && IndexedDb(db, true) && id in db.posts && ShownComments(db.comments, id) == {}
    ensures IndexedDb(TakenDown(db, id, at), true)
  {
    var db' := TakenDown(db, id, at);
    forall c | c in db'.comments ensures CommentIndexed(db'.comments, db'.fts, c, true) {
      assert CommentIndexed(db.comments, db.fts, c, true) && c !in ShownComments(db.comments, id);
    }
    forall p | p in db'.posts ensures PostIndexed(db'.posts, db'.fts, p, true) {
      assert PostIndexed(db.posts, db.fts, p, true);
      if p in db.fts { assert RowRight(db.posts, db.comments, p, db.fts[p]); }
    }
  }

  /** Main result. A removal request takes the rows of the thread's comments out of the index, but
      leaves the comments as they are; so the index still lists everything shown exactly when
      there were no shown comments. */
  lemma RemovalKeepsIndexFullIff(db: Db, id: Id, at: int)
    requires ContentOk(db) && IndexedDb(db, true) && RequestArchiveRemoval(db, id, at).Some? &&
             !Gone(db.posts[id].status)
    ensures IndexedDb(RequestArchiveRemoval(db, id, at).value, true) <==> ShownComments(db.comments, id) == {}
  {
    TakenDownFull(db, id, at);
    hide IndexedDb, ThreadChanged, ShownComments, SameContent;
    var put := TakenDown(db, id, at);
    ThreadChangedSame(put, id, at);
    SameContentBack(put, ThreadChanged(put, id, at).value);
    if IndexedDb(put, true) { ThreadChangedIndexed(put, id, at, true); }
    if IndexedDb(ThreadChanged(put, id, at).value, true) {
      SameContentIndexed(ThreadChanged(put, id, at).value, put, true);
    }
  }

  lemma SameContentBack(a: Db, b: Db)
    requires SameContent(a, b)
    ensures SameContent(b, a)
  {
  }
}
