/**
 Every command that changes what a thread reads tells it: command by command, the thread's
 version moves whenever its text does.
 */
module Telling {
  import opened Types
  import opened Jobs
  import opened Tables
  import opened Commands
  import opened Content
  import opened Versions

  // ---- Rows put in place ----

  ghost predicate SameDigests(jobs: Queue, jobs': Queue) {
    forall q :: Find(jobs', DigestKey(q)) == Find(jobs, DigestKey(q))
  }

  /** A post's row replaced, apart from its thread version. */
  lemma PutPostOnly(db: Db, put: Db, x: Id, p: Post)
    requires x in db.posts && p.threadVersion == db.posts[x].threadVersion && p.digest == db.posts[x].digest
    requires put.posts == db.posts[x := p] && put.comments == db.comments && SameDigests(db.jobs, put.jobs)
    ensures Only(x, db.posts, db.comments, put.posts, put.comments) && Tells(db.posts, db.jobs, put.posts, put.jobs, {})
    ensures p.continues == db.posts[x].continues ==> Threads(put.posts, x) == Threads(db.posts, x)
  {
  }

  lemma LinesElsewhere(comments: Comments, id: Id, c: Comment, q: Id)
    requires q != c.post && (id in comments ==> comments[id].post == c.post)
    ensures Lines(comments[id := c], q) == Lines(comments, q)
  {
  }

  /** A comment's row put or replaced, and its post's counter moved. */
  lemma PutCommentOnly(db: Db, put: Db, id: Id, c: Comment, n: int)
    requires c.post in db.posts && (id in db.comments ==> db.comments[id].post == c.post)
    requires put.comments == db.comments[id := c] && SameDigests(db.jobs, put.jobs)
    requires put.posts == db.posts[c.post := db.posts[c.post].(commentCount := n)]
    ensures Only(c.post, db.posts, db.comments, put.posts, put.comments) &&
            Tells(db.posts, db.jobs, put.posts, put.jobs, {})
    ensures Threads(put.posts, c.post) == Threads(db.posts, c.post)
  {
    forall q | q in db.posts && q != c.post ensures SamePart(db.posts, db.comments, put.posts, put.comments, q) {
      LinesElsewhere(db.comments, id, c, q);
    }
  }

  /** The posts and comments stay, and no digest job changes. */
  lemma TailIsQuiet(a: Db, b: Db)
    requires b.posts == a.posts && b.comments == a.comments && SameDigests(a.jobs, b.jobs)
    ensures Quiet(a, b)
  {
  }

  lemma OtherJob(jobs: Queue, k: JobKey, version: nat, runAfter: int, at: int)
    requires k.kind != Digest
    ensures SameDigests(jobs, Schedule(jobs, k, version, runAfter, at))
  {
  }

  lemma SamePost(posts: Posts, x: Id, n: int)
    requires x in posts && n == posts[x].commentCount
    ensures posts[x := posts[x].(commentCount := n)] == posts
  {
  }

  /** What an edit writes before the thread is told, and what it adds after. */
  lemma ThenToldThen(db: Db, put: Db, x: Id, at: int, end: Db)
    requires Only(x, db.posts, db.comments, put.posts, put.comments) &&
             Tells(db.posts, db.jobs, put.posts, put.jobs, {})
    requires x in db.posts && Threads(put.posts, x) == Threads(db.posts, x) && ThreadChanged(put, x, at).Some?
    requires var told := ThreadChanged(put, x, at).value;
             end.posts == told.posts && end.comments == told.comments && SameDigests(told.jobs, end.jobs)
    ensures Changes(db, end, x, Threads(db.posts, x))
  {
    hide ThreadChanged, Only, Tells, SameDigests, Quiet, Changes;
    ThenTold(db, put, x, at);
    var told := ThreadChanged(put, x, at).value;
    TailIsQuiet(told, end);
    ThenQuiet(db, told, end, x, Threads(db.posts, x));
  }

  // ---- Creating and editing ----

  lemma NewPostTells(db: Db, db': Db, id: Id)
    requires id !in db.posts && id in db'.posts && db'.posts == db.posts[id := db'.posts[id]] &&
             db'.posts[id].continues.None?
    requires forall q :: q != id ==> Lines(db'.comments, q) == Lines(db.comments, q)
    requires forall q :: q != id ==> Find(db'.jobs, DigestKey(q)) == Find(db.jobs, DigestKey(q))
    requires DigestOpen(db'.posts, db'.jobs, id)
    ensures Changes(db, db', id, {id})
  {
  }

  lemma CreatePostTells(db: Db, id: Id, user: Id, title: string, body: string, images: seq<Id>, at: int)
    requires FreshId(db, id) && CreatePost(db, id, user, title, body, images, at).Some?
    ensures Changes(db, CreatePost(db, id, user, title, body, images, at).value, id, {id})
  {
    hide FreshImages, FirstPostStatus, WithImages, Changes;
    var db' := CreatePost(db, id, user, title, body, images, at).value;
    NewPostTells(db, db', id);
  }

  lemma MarkedIsQuiet(db: Db, p: Id, at: int)
    requires p in db.posts
    ensures Quiet(db, Marked(db, p, at)) && Threads(Marked(db, p, at).posts, p) == Threads(db.posts, p)
  {
  }

  /** A row put in place, marked as edited, and told about. */
  lemma ThenEdited(db: Db, put: Db, x: Id, at: int, end: Db)
    requires Only(x, db.posts, db.comments, put.posts, put.comments) &&
             Tells(db.posts, db.jobs, put.posts, put.jobs, {})
    requires x in db.posts && x in put.posts && Threads(put.posts, x) == Threads(db.posts, x) &&
             PostEdited(put, x, at).Some?
    requires var told := PostEdited(put, x, at).value;
             end.posts == told.posts && end.comments == told.comments && end.jobs == told.jobs
    ensures Changes(db, end, x, Threads(db.posts, x))
  {
    MarkedIsQuiet(put, x, at);
    OnlyThen(x, db, put, Marked(put, x, at));
    TellsThen(db, put, Marked(put, x, at), {}, {});
    hide Marked, ThreadChanged, Only, Tells, Changes;
    NothingElse(end.jobs);
    ThenToldThen(db, Marked(put, x, at), x, at, end);
  }

  /** A post's text replaced, then marked and told. */
  lemma RowEdited(db: Db, put: Db, x: Id, p: Post, at: int, end: Db)
    requires x in db.posts && p.threadVersion == db.posts[x].threadVersion && p.digest == db.posts[x].digest &&
             p.continues == db.posts[x].continues
    requires put.posts == db.posts[x := p] && put.comments == db.comments && put.jobs == db.jobs &&
             PostEdited(put, x, at).Some?
    requires var told := PostEdited(put, x, at).value;
             end.posts == told.posts && end.comments == told.comments && end.jobs == told.jobs
    ensures Changes(db, end, x, Threads(db.posts, x))
  {
    NothingElse(db.jobs);
    hide SameDigests, Only, Tells, Changes, PostEdited;
    PutPostOnly(db, put, x, p);
    ThenEdited(db, put, x, at, end);
  }

  lemma SavedRows(db: Db, item: Item, at: int)
    requires SaveRevision(db, item, at).Some?
    ensures var saved := SaveRevision(db, item, at).value;
            saved.posts == db.posts && saved.comments == db.comments && saved.jobs == db.jobs
  {
  }

  lemma EditPostTells(db: Db, id: Id, title: string, body: string, at: int)
    requires EditPost(db, id, title, body, at).Some?
    ensures Changes(db, EditPost(db, id, title, body, at).value, id, Threads(db.posts, id))
  {
    SavedRows(db, Item(APost, id), at);
    hide SaveRevision, PostEdited, Changes, Threads;
    var saved := SaveRevision(db, Item(APost, id), at).value;
    var edited := PostEdited(Retitled(saved, id, title, body), id, at).value;
    if Shown(db.posts[id].status) {
      assert EditPost(db, id, title, body, at).value == edited.(fts := edited.fts[id := id]);
    } else {
      assert EditPost(db, id, title, body, at).value == edited;
    }
    hide EditPost;
    RowEdited(db, Retitled(saved, id, title, body), id, db.posts[id].(title := title, body := body), at,
              EditPost(db, id, title, body, at).value);
  }

  lemma NothingElse(jobs: Queue)
    ensures SameDigests(jobs, jobs)
  {
  }

  // ---- Comments ----

  /** A comment's row put in place and told about; then perhaps other jobs. */
  lemma CommentTold(db: Db, put: Db, id: Id, c: Comment, n: int, at: int, end: Db)
    requires c.post in db.posts && (id in db.comments ==> db.comments[id].post == c.post)
    requires put.comments == db.comments[id := c] && SameDigests(db.jobs, put.jobs)
    requires put.posts == db.posts[c.post := db.posts[c.post].(commentCount := n)] &&
             ThreadChanged(put, c.post, at).Some?
    requires var told := ThreadChanged(put, c.post, at).value;
             end.posts == told.posts && end.comments == told.comments && SameDigests(told.jobs, end.jobs)
    ensures Changes(db, end, c.post, Threads(db.posts, c.post))
  {
    hide ThreadChanged, Only, Tells, SameDigests, Changes;
    PutCommentOnly(db, put, id, c, n);
    ThenToldThen(db, put, c.post, at, end);
  }

  lemma CreateCommentTells(db: Db, id: Id, post: Id, parent: Id, user: Id, body: string, image: Option<Id>, at: int)
    requires CreateComment(db, id, post, parent, user, body, image, at).Some?
    ensures Changes(db, CreateComment(db, id, post, parent, user, body, image, at).value, post, Threads(db.posts, post))
  {
    hide ThreadChanged, ReplyParent, FreshImages, WithImages, Changes, Threads, IsMember, Schedule;
    var images := if image.Some? then [image.value] else [];
    var c := Comment(post, ReplyParent(db, post, parent).value, user, body, Visible, None, 1, false, None);
    var put := AddCount(db.(comments := db.comments[id := c], side := WithImages(db.side, post, Some(id), images)), post, 1);
    var told := ThreadChanged(put, post, at).value;
    assert CreateComment(db, id, post, parent, user, body, image, at).value ==
           told.(jobs := Schedule(told.jobs, JobKey(CheckComment, id), 1, at, at), fts := told.fts[id := post]);
    hide CreateComment;
    OtherJob(told.jobs, JobKey(CheckComment, id), 1, at, at);
    NothingElse(db.jobs);
    hide SameDigests;
    CommentTold(db, put, id, c, db.posts[post].commentCount + 1, at,
                CreateComment(db, id, post, parent, user, body, image, at).value);
  }

  lemma RewrittenRows(db: Db, id: Id, body: string, at: int)
    requires id in db.comments
    ensures var put := Rewritten(db, id, body, at);
            put.posts == db.posts && put.comments == db.comments[id := put.comments[id]] &&
            SameDigests(db.jobs, put.jobs) &&
            put.comments[id].post == db.comments[id].post
  {
  }

  lemma EditCommentTells(db: Db, id: Id, body: string, at: int)
    requires CommentsHavePosts(db.posts, db.comments) && EditComment(db, id, body, at).Some?
    ensures Changes(db, EditComment(db, id, body, at).value, db.comments[id].post,
                    Threads(db.posts, db.comments[id].post))
  {
    hide ThreadChanged, SaveRevision, Changes, Threads, Rewritten, SameDigests;
    EditCommentIs(db, id, body, at);
    SavedRows(db, Item(AComment, id), at);
    var post := db.comments[id].post;
    hide EditComment;
    var put := Rewritten(SaveRevision(db, Item(AComment, id), at).value, id, body, at);
    RewrittenRows(SaveRevision(db, Item(AComment, id), at).value, id, body, at);
    NothingElse(ThreadChanged(put, post, at).value.jobs);
    SamePost(db.posts, post, db.posts[post].commentCount);
    CommentTold(db, put, id, put.comments[id], db.posts[post].commentCount, at, EditComment(db, id, body, at).value);
  }

  // ---- Status changes ----

  lemma PostTold(db: Db, put: Db, x: Id, p: Post, at: int, end: Db)
    requires x in db.posts && p.threadVersion == db.posts[x].threadVersion && p.digest == db.posts[x].digest &&
             p.continues == db.posts[x].continues
    requires put.posts == db.posts[x := p] && put.comments == db.comments && SameDigests(db.jobs, put.jobs)
    requires ThreadChanged(put, x, at).Some?
    requires var told := ThreadChanged(put, x, at).value;
             end.posts == told.posts && end.comments == told.comments && SameDigests(told.jobs, end.jobs)
    ensures Changes(db, end, x, Threads(db.posts, x))
  {
    hide ThreadChanged, Only, Tells, SameDigests, Changes;
    PutPostOnly(db, put, x, p);
    ThenToldThen(db, put, x, at, end);
  }

  lemma RestatusPostTold(db: Db, id: Id, to: Status, purge: Option<int>, at: int)
    requires id in db.posts && ThreadChanged(Restatus(db, Item(APost, id), to, purge), id, at).Some?
    ensures Changes(db, ThreadChanged(Restatus(db, Item(APost, id), to, purge), id, at).value, id,
                    Threads(db.posts, id))
  {
    var put := Restatus(db, Item(APost, id), to, purge);
    assert put.posts == db.posts[id := db.posts[id].(status := to, purgeAfter := purge)];
    assert put.comments == db.comments && put.jobs == db.jobs;
    hide ThreadChanged, Changes, Threads, Restatus;
    NothingElse(db.jobs);
    NothingElse(ThreadChanged(put, id, at).value.jobs);
    hide SameDigests;
    PostTold(db, put, id, db.posts[id].(status := to, purgeAfter := purge), at, ThreadChanged(put, id, at).value);
  }

  lemma RestatusCommentRows(db: Db, id: Id, to: Status, purge: Option<int>)
    requires id in db.comments && db.comments[id].post in db.posts
    ensures var put, post := Restatus(db, Item(AComment, id), to, purge), db.comments[id].post;
            put.jobs == db.jobs && put.comments == db.comments[id := put.comments[id]] &&
            put.comments[id].post == post &&
            post in put.posts &&
            put.posts == db.posts[post := db.posts[post].(commentCount := put.posts[post].commentCount)]
  {
  }

  lemma RestatusCommentTold(db: Db, id: Id, to: Status, purge: Option<int>, at: int)
    requires id in db.comments && db.comments[id].post in db.posts
    requires ThreadChanged(Restatus(db, Item(AComment, id), to, purge), db.comments[id].post, at).Some?
    ensures Changes(db, ThreadChanged(Restatus(db, Item(AComment, id), to, purge), db.comments[id].post, at).value,
                    db.comments[id].post, Threads(db.posts, db.comments[id].post))
  {
    hide ThreadChanged, Changes, Threads, Restatus;
    var put, post := Restatus(db, Item(AComment, id), to, purge), db.comments[id].post;
    RestatusCommentRows(db, id, to, purge);
    NothingElse(db.jobs);
    NothingElse(ThreadChanged(put, post, at).value.jobs);
    hide SameDigests;
    CommentTold(db, put, id, put.comments[id], put.posts[post].commentCount, at, ThreadChanged(put, post, at).value);
  }

  lemma RestatusTold(db: Db, item: Item, to: Status, purge: Option<int>, at: int)
    requires Exists(db, item) && ThreadOf(db, item) in db.posts &&
             ThreadChanged(Restatus(db, item, to, purge), ThreadOf(db, item), at).Some?
    ensures Changes(db, ThreadChanged(Restatus(db, item, to, purge), ThreadOf(db, item), at).value, ThreadOf(db, item),
                    Threads(db.posts, ThreadOf(db, item)))
  {
    hide ThreadChanged, Changes, Threads, Restatus;
    if item.kind == APost {
      assert item == Item(APost, item.id);
      RestatusPostTold(db, item.id, to, purge, at);
    } else {
      assert item == Item(AComment, item.id);
      RestatusCommentTold(db, item.id, to, purge, at);
    }
  }

  lemma ChangeStatusTells(db: Db, item: Item, to: Status, at: int)
    requires Exists(db, item) && ThreadOf(db, item) in db.posts && ChangeStatus(db, item, to, at).Some? &&
             StatusOf(db, item) != to
    ensures Changes(db, ChangeStatus(db, item, to, at).value, ThreadOf(db, item), Threads(db.posts, ThreadOf(db, item)))
  {
    ChangeStatusIs(db, item, to, at);
    hide ChangeStatus, Restatus, ThreadChanged, Changes, Threads;
    RestatusTold(db, item, to, PurgeOf(db, item), at);
  }

  /** A counter moving afterwards is quiet. */
  lemma CountedIsQuiet(db: Db, p: Id, delta: int)
    ensures Quiet(db, Counted(Some(db), p, delta).value)
  {
    NothingElse(db.jobs);
    if delta != 0 && p in db.posts {
      PutPostOnly(db, AddCount(db, p, delta), p, db.posts[p].(commentCount := db.posts[p].commentCount + delta));
    }
  }

  lemma UncountedRows(db: Db, id: Id, to: Status, purge: Option<int>)
    requires id in db.comments
    ensures var put := Uncounted(db, id, to, purge);
            put.jobs == db.jobs && put.comments == db.comments[id := put.comments[id]] &&
            put.comments[id].post == db.comments[id].post &&
            put.posts == db.posts
  {
  }

  lemma UncountedTold(db: Db, id: Id, to: Status, purge: Option<int>, at: int)
    requires id in db.comments && db.comments[id].post in db.posts
    requires ThreadChanged(Uncounted(db, id, to, purge), db.comments[id].post, at).Some?
    ensures Changes(db, ThreadChanged(Uncounted(db, id, to, purge), db.comments[id].post, at).value,
                    db.comments[id].post, Threads(db.posts, db.comments[id].post))
  {
    hide ThreadChanged, Changes, Threads, Uncounted, SameDigests;
    var put, post := Uncounted(db, id, to, purge), db.comments[id].post;
    UncountedRows(db, id, to, purge);
    NothingElse(db.jobs);
    NothingElse(ThreadChanged(put, post, at).value.jobs);
    SamePost(db.posts, post, db.posts[post].commentCount);
    CommentTold(db, put, id, put.comments[id], db.posts[post].commentCount, at, ThreadChanged(put, post, at).value);
  }

  lemma AfterwardsTells(db: Db, item: Item, to: Status, purge: Option<int>, at: int)
    requires Exists(db, item) && ThreadOf(db, item) in db.posts && Afterwards(db, item, to, purge, at).Some?
    ensures Changes(db, Afterwards(db, item, to, purge, at).value, ThreadOf(db, item),
                    Threads(db.posts, ThreadOf(db, item)))
  {
    hide ThreadChanged, Changes, Threads, Restatus, Afterwards, Quiet, Uncounted;
    if item.kind == APost {
      assert item == Item(APost, item.id);
      AfterwardsPost(db, item.id, to, purge, at);
      RestatusPostTold(db, item.id, to, purge, at);
    } else {
      assert item == Item(AComment, item.id);
      var post := db.comments[item.id].post;
      AfterwardsCommentIs(db, item.id, to, purge, at);
      UncountedTold(db, item.id, to, purge, at);
      var told := ThreadChanged(Uncounted(db, item.id, to, purge), post, at).value;
      CountedIsQuiet(told, post, One(Shown(to)) - One(Shown(db.comments[item.id].status)));
      hide Counted;
      ThenQuiet(db, told, Afterwards(db, item, to, purge, at).value, post, Threads(db.posts, post));
    }
  }

  lemma SoftDeleteTells(db: Db, item: Item, byMod: bool, at: int)
    requires Exists(db, item) && ThreadOf(db, item) in db.posts && !Gone(StatusOf(db, item)) &&
             SoftDelete(db, item, byMod, at).Some?
    ensures Changes(db, SoftDelete(db, item, byMod, at).value, ThreadOf(db, item),
                    Threads(db.posts, ThreadOf(db, item)))
  {
    hide ThreadChanged, Changes, Threads;
    var keep := if byMod then MOD_REMOVE_KEEP else AUTHOR_DELETE_KEEP;
    AfterwardsTells(db, item, if byMod then Removed else Deleted, Some(at + keep), at);
  }

  lemma RestoreTells(db: Db, item: Item, at: int)
    requires Exists(db, item) && ThreadOf(db, item) in db.posts && StatusOf(db, item) != Visible &&
             Restore(db, item, at).Some?
    ensures Changes(db, Restore(db, item, at).value, ThreadOf(db, item), Threads(db.posts, ThreadOf(db, item)))
  {
    hide ThreadChanged, Changes, Threads;
    AfterwardsTells(db, item, Visible, None, at);
  }

  lemma NothingSteady(db: Db, db': Db)
    requires db'.posts == db.posts && db'.comments == db.comments && SameDigests(db.jobs, db'.jobs)
    ensures AllSteady(db, db')
  {
  }

  // ---- Moderation ----

  lemma ChangeStatusSteady(db: Db, item: Item, to: Status, at: int)
    requires CommentsHavePosts(db.posts, db.comments) && Exists(db, item) && ChangeStatus(db, item, to, at).Some?
    ensures AllSteady(db, ChangeStatus(db, item, to, at).value)
  {
    hide Changes, AllSteady, ThreadChanged, SameDigests;
    if StatusOf(db, item) != to {
      hide ChangeStatus;
      ChangeStatusTells(db, item, to, at);
      ChangesGrow(db, ChangeStatus(db, item, to, at).value, ThreadOf(db, item), Threads(db.posts, ThreadOf(db, item)));
    } else {
      NothingElse(db.jobs);
      NothingSteady(db, db);
    }
  }

  lemma ApplyVerdictSteady(db: Db, item: Item, verdict: Verdict, at: int)
    requires CommentsHavePosts(db.posts, db.comments) && ApplyVerdict(db, item, verdict, at).Some?
    ensures AllSteady(db, ApplyVerdict(db, item, verdict, at).value)
  {
    hide AllSteady, ChangeStatus, SameDigests;
    NothingElse(db.jobs);
    NothingSteady(db, db);
    if Exists(db, item) && verdict != Fine && !Cleared(db, item) && Shown(StatusOf(db, item)) {
      var to := if verdict == Violation then AutoHidden else Flagged;
      if StatusOf(db, item) != to { ChangeStatusSteady(db, item, to, at); }
    }
  }

  lemma FinishOther(jobs: Queue, k: JobKey, worker: string, version: nat, current: nat, at: int)
    requires k.kind != Digest
    ensures SameDigests(jobs, Finish(jobs, k, worker, version, current, at))
  {
  }

  lemma SetCommentCheckSteady(db: Db, id: Id, worker: string, version: nat, verdict: Verdict, at: int)
    requires CommentsHavePosts(db.posts, db.comments) && SetCommentCheck(db, id, worker, version, verdict, at).Some?
    ensures AllSteady(db, SetCommentCheck(db, id, worker, version, verdict, at).value)
  {
    hide AllSteady, ApplyVerdict, SameDigests, Finish, Accepts;
    var k := JobKey(CheckComment, id);
    var finished := db.(jobs := Finish(db.jobs, k, worker, version, db.comments[id].version, at));
    FinishOther(db.jobs, k, worker, version, db.comments[id].version, at);
    NothingSteady(db, finished);
    if Accepts(db.jobs, k, worker, version, db.comments[id].version) {
      ApplyVerdictSteady(finished, Item(AComment, id), verdict, at);
      AllSteadyThen(db, finished, SetCommentCheck(db, id, worker, version, verdict, at).value);
    }
  }

  lemma SetClearedSteady(db: Db, item: Item)
    requires Exists(db, item)
    ensures AllSteady(db, SetCleared(db, item)) && Exists(SetCleared(db, item), item)
  {
    hide AllSteady;
    ClearedIsQuiet(db, item);
    hide Quiet;
    QuietSteady(db, SetCleared(db, item));
  }

  lemma LinesAlike(comments: Comments, id: Id, q: Id)
    requires id in comments
    ensures Lines(comments[id := comments[id].(aiCleared := true)], q) == Lines(comments, q)
  {
  }

  lemma SameLinesQuiet(a: Db, b: Db)
    requires b.posts == a.posts && SameDigests(a.jobs, b.jobs) &&
             forall q :: Lines(b.comments, q) == Lines(a.comments, q)
    ensures Quiet(a, b)
  {
  }

  lemma ClearedIsQuiet(db: Db, item: Item)
    requires Exists(db, item)
    ensures Quiet(db, SetCleared(db, item))
  {
    NothingElse(db.jobs);
    hide SameDigests, Lines, Quiet, Tells;
    if item.kind == APost {
      MarkPostQuiet(db, item.id);
    } else {
      forall q ensures Lines(SetCleared(db, item).comments, q) == Lines(db.comments, q) {
        LinesAlike(db.comments, item.id, q);
      }
      SameLinesQuiet(db, SetCleared(db, item));
    }
  }

  lemma MarkPostQuiet(db: Db, id: Id)
    requires id in db.posts
    ensures Quiet(db, SetCleared(db, Item(APost, id)))
  {
  }

  lemma ApproveSteady(db: Db, item: Item, at: int)
    requires CommentsHavePosts(db.posts, db.comments) && Approve(db, item, at).Some?
    ensures AllSteady(db, Approve(db, item, at).value)
  {
    hide AllSteady, ChangeStatus, SetCleared, SameDigests, Schedule, VersionOf;
    ChangeStatusSteady(db, item, Visible, at);
    var changed := ChangeStatus(db, item, Visible, at).value;
    var cleared, end := SetCleared(changed, item), Approve(db, item, at).value;
    SetClearedSteady(changed, item);
    AllSteadyThen(db, changed, cleared);
    if StatusOf(db, item) == Held && item.kind == APost {
      OtherJob(cleared.jobs, CheckKey(item), VersionOf(cleared, item), at, at);
      hide CheckKey;
      NothingSteady(cleared, end);
      AllSteadyThen(db, cleared, end);
    }
  }

  lemma ReportSteady(db: Db, item: Item, user: Id, at: int)
    requires CommentsHavePosts(db.posts, db.comments) && Report(db, item, user, at).Some?
    ensures AllSteady(db, Report(db, item, user, at).value)
  {
    hide AllSteady, ChangeStatus, SameDigests, Schedule, VersionOf, IsMember;
    var reported := db.(side := db.side.(reports := db.side.reports + {(item, user)}));
    NothingElse(db.jobs);
    NothingSteady(db, reported);
    var end := Report(db, item, user, at).value;
    var flagged := if StatusOf(db, item) == Visible && !Cleared(db, item) then ChangeStatus(reported, item, Flagged, at).value
                   else reported;
    if StatusOf(db, item) == Visible && !Cleared(db, item) {
      ChangeStatusSteady(reported, item, Flagged, at);
      AllSteadyThen(db, reported, flagged);
    }
    OtherJob(flagged.jobs, CheckKey(item), VersionOf(db, item), at, at);
    hide CheckKey;
    NothingSteady(flagged, end);
    AllSteadyThen(db, flagged, end);
  }

  lemma VoteSteady(db: Db, item: Item, user: Id, keep: bool, at: int)
    requires CommentsHavePosts(db.posts, db.comments) && Vote(db, item, user, keep, at).Some?
    ensures AllSteady(db, Vote(db, item, user, keep, at).value)
  {
    hide AllSteady, ChangeStatus, SetCleared, SameDigests, CanVote, Ballots;
    var voted := db.(side := db.side.(flagVotes := db.side.flagVotes[(item, user) := keep]));
    NothingElse(db.jobs);
    NothingSteady(db, voted);
    var end := Vote(db, item, user, keep, at).value;
    var keeps, hides := |Ballots(voted.side, item, true)|, |Ballots(voted.side, item, false)|;
    if hides >= db.voteThreshold && hides > keeps {
      ChangeStatusSteady(voted, item, AutoHidden, at);
      AllSteadyThen(db, voted, end);
    } else if keeps >= db.voteThreshold {
      ChangeStatusSteady(voted, item, Visible, at);
      var shown := ChangeStatus(voted, item, Visible, at).value;
      AllSteadyThen(db, voted, shown);
      SetClearedSteady(shown, item);
      AllSteadyThen(db, shown, end);
    }
  }

  // ---- Moves and removals ----

  lemma MoveUnderSteady(db: Db, id: Id, under: Id, at: int)
    requires MoveUnder(db, id, under, at).Some?
    ensures AllSteady(db, MoveUnder(db, id, under, at).value)
  {
    hide AllSteady, ThreadChanged, Changes, SameDigests;
    var put := db.(posts := db.posts[id := db.posts[id].(continues := Some(under))]);
    var end := MoveUnder(db, id, under, at).value;
    NothingElse(db.jobs);
    hide MoveUnder;
    PutPostOnly(db, put, id, put.posts[id]);
    ThenTold(db, put, id, at);
    ChangesGrow(db, end, id, Threads(put.posts, id));
  }

  /** Leaving a thread: both threads are told before the link is cut. */
  lemma LeaveThread(db: Db, told: Db, end: Db, id: Id, b: set<Id>)
    requires id in db.posts && Changes(db, told, id, b) && id in told.posts
    requires end == told.(posts := told.posts[id := told.posts[id].(continues := None)])
    ensures Changes(db, end, id, b)
  {
  }

  lemma MoveOutSteady(db: Db, id: Id, at: int)
    requires MoveOut(db, id, at).Some?
    ensures AllSteady(db, MoveOut(db, id, at).value)
  {
    hide AllSteady, ThreadChanged, Changes, SameDigests, Only, Tells;
    var end := MoveOut(db, id, at).value;
    NothingElse(db.jobs);
    NothingSteady(db, db);
    if db.posts[id].continues.Some? {
      NothingOnly(db, id);
      ThenTold(db, db, id, at);
      LeaveThread(db, ThreadChanged(db, id, at).value, end, id, Threads(db.posts, id));
      ChangesGrow(db, end, id, Threads(db.posts, id));
    }
  }

  lemma NothingOnly(db: Db, x: Id)
    ensures x in db.posts ==> Only(x, db.posts, db.comments, db.posts, db.comments)
    ensures Tells(db.posts, db.jobs, db.posts, db.jobs, {})
  {
  }

  lemma RequestArchiveRemovalSteady(db: Db, id: Id, at: int)
    requires RequestArchiveRemoval(db, id, at).Some?
    ensures AllSteady(db, RequestArchiveRemoval(db, id, at).value)
  {
    hide AllSteady, ThreadChanged, Changes, SameDigests;
    var end := RequestArchiveRemoval(db, id, at).value;
    NothingElse(db.jobs);
    NothingSteady(db, db);
    if !Gone(db.posts[id].status) {
      var put := SetStatus(db, Item(APost, id), Removed, Some(at + MOD_REMOVE_KEEP)).(
        fts := map i | i in db.fts && db.fts[i] != id :: db.fts[i]);
      NothingElse(end.jobs);
      PostTold(db, put, id, put.posts[id], at, end);
      ChangesGrow(db, end, id, Threads(db.posts, id));
    }
  }

  // ---- Links and notes ----

  lemma LinkNoteSteady(db: Db, group: Id, host: Id, other: Id, id: Id, ext: nat, at: int)
    requires LinkNote(db, group, host, other, id, ext, at).Some?
    ensures AllSteady(db, LinkNote(db, group, host, other, id, ext, at).value)
  {
    hide AllSteady, FindNote, NoteVersion, Schedule, SameDigests;
    var r, found := LinkNote(db, group, host, other, id, ext, at).value, FindNote(db.notes, db.sources, group, host, other);
    var n := if found.Some? then found.value else id;
    OtherJob(db.jobs, JobKey(Note, n), NoteVersion(r, n), at, at);
    LinkNoteRows(db, group, host, other, id, ext, at);
    hide LinkNote;
    NothingSteady(db, r);
  }

  lemma LinkNoteRows(db: Db, group: Id, host: Id, other: Id, id: Id, ext: nat, at: int)
    requires LinkNote(db, group, host, other, id, ext, at).Some?
    ensures var r, found := LinkNote(db, group, host, other, id, ext, at).value, FindNote(db.notes, db.sources, group, host, other);
            var n := if found.Some? then found.value else id;
            r.posts == db.posts && r.comments == db.comments &&
            r.jobs == Schedule(db.jobs, JobKey(Note, n), NoteVersion(r, n), at, at)
  {
    hide FindNote, Schedule, SumSources;
    if FindNote(db.notes, db.sources, group, host, other).Some? {
    } else {
    }
  }

  lemma AddLinkSteady(db: Db, a: Id, b: Id, auto: bool, noteA: Id, noteB: Id, at: int)
    requires AddLink(db, a, b, auto, noteA, noteB, at).Some?
    ensures AllSteady(db, AddLink(db, a, b, auto, noteA, noteB, at).value)
  {
    hide AllSteady, LinkNote, SameDigests;
    var key := if a < b then (a, b) else (b, a);
    var linked := db.(links := db.links[key := true]);
    NothingElse(db.jobs);
    NothingSteady(db, db);
    NothingSteady(db, linked);
    if !(key in db.links && (db.links[key] || auto)) {
      var one := LinkNote(linked, db.group, a, b, noteA, 0, at).value;
      LinkNoteSteady(linked, db.group, a, b, noteA, 0, at);
      AllSteadyThen(db, linked, one);
      LinkNoteSteady(one, db.group, b, a, noteB, 0, at);
      AllSteadyThen(db, one, AddLink(db, a, b, auto, noteA, noteB, at).value);
    }
  }

  lemma {:induction false} AddLinksSteady(db: Db, post: Id, links: seq<CheckLink>, at: int)
    requires AddLinks(db, post, links, at).Some?
    ensures AllSteady(db, AddLinks(db, post, links, at).value)
    decreases |links|
  {
    hide AllSteady, AddLink, SameDigests;
    if links == [] {
      NothingElse(db.jobs);
      NothingSteady(db, db);
    } else {
      var before, l := AddLinks(db, post, links[..|links| - 1], at).value, links[|links| - 1];
      AddLinksSteady(db, post, links[..|links| - 1], at);
      if Linkable(before, post, l.other) {
        AddLinkSteady(before, post, l.other, true, l.noteHere, l.noteThere, at);
        AllSteadyThen(db, before, AddLinks(db, post, links, at).value);
      }
    }
  }

  lemma SetCheckSteady(db: Db, id: Id, worker: string, version: nat, verdict: Verdict, links: seq<CheckLink>, at: int)
    requires CommentsHavePosts(db.posts, db.comments) && SetCheck(db, id, worker, version, verdict, links, at).Some?
    ensures AllSteady(db, SetCheck(db, id, worker, version, verdict, links, at).value)
  {
    hide AllSteady, ApplyVerdict, SameDigests, Finish, Accepts, AddLinks;
    var k := JobKey(Check, id);
    var finished := db.(jobs := Finish(db.jobs, k, worker, version, db.posts[id].version, at));
    FinishOther(db.jobs, k, worker, version, db.posts[id].version, at);
    NothingSteady(db, finished);
    if Accepts(db.jobs, k, worker, version, db.posts[id].version) {
      var judged := ApplyVerdict(finished, Item(APost, id), verdict, at).value;
      ApplyVerdictSteady(finished, Item(APost, id), verdict, at);
      AllSteadyThen(db, finished, judged);
      if verdict != Violation && Shown(db.posts[id].status) {
        AddLinksSteady(judged, id, links, at);
        AllSteadyThen(db, judged, AddLinks(judged, id, links, at).value);
      }
    }
  }

  lemma SetNoteRows(db: Db, n: Id, worker: string, version: nat, text: string, noChange: bool, at: int)
    requires SetNote(db, n, worker, version, text, noChange, at).Some?
    ensures var r := SetNote(db, n, worker, version, text, noChange, at).value;
            r.posts == db.posts && r.comments == db.comments &&
            r.jobs == Finish(db.jobs, JobKey(Note, n), worker, version, NoteVersion(db, n), at)
  {
    hide Finish, Accepts, Cut, NoteVersion;
    if !Accepts(db.jobs, JobKey(Note, n), worker, version, NoteVersion(db, n)) {
    } else if noChange && db.notes[n].text != "" {
    } else if Cut(text) == "" {
    } else {
    }
  }

  lemma SetNoteSteady(db: Db, n: Id, worker: string, version: nat, text: string, noChange: bool, at: int)
    requires SetNote(db, n, worker, version, text, noChange, at).Some?
    ensures AllSteady(db, SetNote(db, n, worker, version, text, noChange, at).value)
  {
    SetNoteRows(db, n, worker, version, text, noChange, at);
    hide AllSteady, SetNote, Finish, NoteVersion;
    FinishOther(db.jobs, JobKey(Note, n), worker, version, NoteVersion(db, n), at);
    NothingSteady(db, SetNote(db, n, worker, version, text, noChange, at).value);
  }

  lemma MarkSisterStaleSteady(db: Db, n: Id, version: nat, at: int)
    requires MarkSisterStale(db, n, version, at).Some?
    ensures AllSteady(db, MarkSisterStale(db, n, version, at).value)
  {
  }

  lemma RemoveLinkSteady(db: Db, a: Id, b: Id, who: Id)
    requires RemoveLink(db, a, b, who).Some?
    ensures AllSteady(db, RemoveLink(db, a, b, who).value)
  {
  }

  // ---- The purge ----

  lemma KeptUpdates(posts: Posts, before: int, p: Id)
    requires PostsFine(posts) && p in KeptPosts(posts, before)
    ensures ShownUpdates(CutLoose(KeptPosts(posts, before)), p) == ShownUpdates(posts, p)
    ensures ShownUpdates(posts, p) <= KeptPosts(posts, before).Keys
  {
  }

  lemma KeptPart(posts: Posts, comments: Comments, before: int, p: Id)
    requires CommentsFine(comments) && p in KeptPosts(posts, before)
    ensures Part(CutLoose(KeptPosts(posts, before)), KeptComments(posts, comments, before), p) ==
            Part(posts, comments, p)
  {
  }

  /** What a purge leaves of a thread reads as before. */
  lemma KeptView(posts: Posts, comments: Comments, before: int, p: Id)
    requires PostsFine(posts) && CommentsFine(comments) && p in KeptPosts(posts, before)
    ensures View(CutLoose(KeptPosts(posts, before)), KeptComments(posts, comments, before), p) ==
            View(posts, comments, p)
  {
    KeptUpdates(posts, before, p);
    KeptPart(posts, comments, before, p);
    forall q | q in ShownUpdates(posts, p)
      ensures Part(CutLoose(KeptPosts(posts, before)), KeptComments(posts, comments, before), q) ==
              Part(posts, comments, q)
    {
      KeptPart(posts, comments, before, q);
    }
    hide Part, ShownUpdates, KeptComments, KeptPosts, CutLoose;
  }

  lemma PurgeSteady(db: Db, before: int, p: Id)
    requires PostsFine(db.posts) && CommentsFine(db.comments) && p in db.posts && p in PurgeGroup(db, before).posts
    ensures Steady(db, PurgeGroup(db, before), p)
  {
    hide PurgeSide, KeepSources, KeptNotes, KeptRows, KeptLinks, View, KeptComments;
    KeptView(db.posts, db.comments, before, p);
  }
}
