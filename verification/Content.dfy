/**
 What every command on a group's log keeps true of its posts and comments: the counters, the
 search index, the purge dates, the "cleared" mark and the update chains stay in step.
 */
module Content {
  import opened Types
  import opened Jobs
  import opened Tables
  import opened Commands

  type Posts = map<Id, Post>
  type Comments = map<Id, Comment>

  // ---- The invariant, table by table ----

  ghost predicate CommentsHavePosts(posts: Posts, comments: Comments) {
    forall c <- comments :: comments[c].post in posts
  }

  /** comment_count is the number of shown comments. */
  ghost predicate CountsRight(posts: Posts, comments: Comments) {
    forall p <- posts :: posts[p].commentCount == |ShownComments(comments, p)|
  }

  predicate PostFine(p: Post) {
    && (p.purgeAfter.Some? <==> Gone(p.status))
    && (p.aiCleared ==> Undisturbed(p.status))
  }

  predicate CommentFine(c: Comment) {
    && (c.purgeAfter.Some? <==> Gone(c.status))
    && (c.aiCleared ==> Undisturbed(c.status))
  }

  predicate Undisturbed(s: Status) { s == Visible || Gone(s) }

  /** A purge date is set on exactly the soft-deleted items, and what members or a mod cleared
      is not flagged, hidden or held. */
  ghost predicate PostsFine(posts: Posts) {
    forall p <- posts :: PostFine(posts[p])
  }

  ghost predicate CommentsFine(comments: Comments) {
    forall c <- comments :: CommentFine(comments[c])
  }

  /** A row of the index: a shown post, a shown comment, or (with post 0) a FAQ entry or an
      outside page. Ids are unique across kinds. */
  predicate RowRight(posts: Posts, comments: Comments, i: Id, post: Id) {
    if i in posts then Shown(posts[i].status) && post == i
    else if i in comments then Shown(comments[i].status) && post != 0
    else post == 0
  }

  /** Nothing hidden is searchable. */
  ghost predicate IndexSound(posts: Posts, comments: Comments, fts: map<Id, Id>) {
    forall i <- fts :: RowRight(posts, comments, i, fts[i])
  }

  /** An update sits directly under an earlier post that stands on its own. */
  predicate UpdateFine(posts: Posts, p: Id)
    requires p in posts
  {
    match posts[p].continues
    case None => true
    case Some(q) => q in posts && q < p && posts[q].continues.None?
  }

  ghost predicate UpdatesOneDeep(posts: Posts) {
    forall p {:trigger UpdateFine(posts, p)} | p in posts :: UpdateFine(posts, p)
  }

  /** The unique index on posts' references points at the right rows, and misses none. */
  predicate PostRefFine(posts: Posts, refs: map<string, Id>, r: string)
    requires r in refs
  {
    refs[r] in posts && posts[refs[r]].originRef == Some(r)
  }

  predicate PostListed(posts: Posts, refs: map<string, Id>, p: Id)
    requires p in posts
  {
    match posts[p].originRef case None => true case Some(r) => r in refs && refs[r] == p
  }

  ghost predicate PostRefsRight(posts: Posts, refs: map<string, Id>) {
    && (forall r {:trigger PostRefFine(posts, refs, r)} | r in refs :: PostRefFine(posts, refs, r))
    && (forall p {:trigger PostListed(posts, refs, p)} | p in posts :: PostListed(posts, refs, p))
  }

  predicate CommentRefFine(comments: Comments, refs: map<string, Id>, r: string)
    requires r in refs
  {
    refs[r] in comments && comments[refs[r]].originRef == Some(r)
  }

  predicate CommentListed(comments: Comments, refs: map<string, Id>, c: Id)
    requires c in comments
  {
    match comments[c].originRef case None => true case Some(r) => r in refs && refs[r] == c
  }

  ghost predicate CommentRefsRight(comments: Comments, refs: map<string, Id>) {
    && (forall r {:trigger CommentRefFine(comments, refs, r)} | r in refs :: CommentRefFine(comments, refs, r))
    && (forall c {:trigger CommentListed(comments, refs, c)} | c in comments :: CommentListed(comments, refs, c))
  }

  ghost predicate ContentOk(db: Db) {
    && CommentsHavePosts(db.posts, db.comments)
    && CountsRight(db.posts, db.comments)
    && PostsFine(db.posts) && CommentsFine(db.comments)
    && IndexSound(db.posts, db.comments, db.fts)
    && UpdatesOneDeep(db.posts)
    && PostRefsRight(db.posts, db.postRefs)
    && CommentRefsRight(db.comments, db.commentRefs)
    && 0 !in db.posts && db.posts.Keys !! db.comments.Keys
  }

  function NoIndex(db: Db): Db { db.(fts := map[]) }

  /** The invariant without its clause on the index. */
  ghost predicate Sound(db: Db) { ContentOk(NoIndex(db)) }

  lemma ContentIsSound(db: Db)
    requires ContentOk(db)
    ensures Sound(db)
  {
  }

  /** An id nothing has used: ids come from one generator for everything. */
  predicate FreshId(db: Db, id: Id) {
    id != 0 && id !in db.posts && id !in db.comments && id !in db.fts
  }

  // ---- What does not matter to it ----

  /** The same posts, apart from their thread versions. */
  predicate SameRow(p: Post, q: Post) {
    q == p.(threadVersion := q.threadVersion)
  }

  ghost predicate SamePosts(a: Posts, b: Posts) {
    a.Keys == b.Keys && forall p <- a :: SameRow(a[p], b[p])
  }

  ghost predicate SameContent(a: Db, b: Db) {
    && SamePosts(a.posts, b.posts)
    && a.comments == b.comments && a.fts == b.fts && a.postRefs == b.postRefs && a.commentRefs == b.commentRefs
  }

  /** The update chains depend on nothing but the links. */
  lemma UpdatesDependOnLinks(a: Posts, b: Posts)
    requires UpdatesOneDeep(a)
    requires a.Keys == b.Keys && forall p <- a :: b[p].continues == a[p].continues
    ensures UpdatesOneDeep(b)
  {
    forall p | p in b ensures UpdateFine(b, p) {
      assert UpdateFine(a, p);
    }
  }

  /** The index on references depends on nothing but the references. */
  lemma PostRefsDependOnRefs(a: Posts, b: Posts, refs: map<string, Id>)
    requires PostRefsRight(a, refs)
    requires a.Keys == b.Keys && forall p <- a :: b[p].originRef == a[p].originRef
    ensures PostRefsRight(b, refs)
  {
    forall r | r in refs ensures PostRefFine(b, refs, r) {
      assert PostRefFine(a, refs, r);
    }
    forall p | p in b ensures PostListed(b, refs, p) {
      assert PostListed(a, refs, p);
    }
  }

  lemma CommentRefsDependOnRefs(a: Comments, b: Comments, refs: map<string, Id>)
    requires CommentRefsRight(a, refs)
    requires a.Keys == b.Keys && forall c <- a :: b[c].originRef == a[c].originRef
    ensures CommentRefsRight(b, refs)
  {
    forall r | r in refs ensures CommentRefFine(b, refs, r) {
      assert CommentRefFine(a, refs, r);
    }
    forall c | c in b ensures CommentListed(b, refs, c) {
      assert CommentListed(a, refs, c);
    }
  }

  lemma SameContentOk(a: Db, b: Db)
    requires ContentOk(a) && SameContent(a, b)
    ensures ContentOk(b)
  {
    UpdatesDependOnLinks(a.posts, b.posts);
    PostRefsDependOnRefs(a.posts, b.posts, a.postRefs);
    assert forall i <- b.fts :: RowRight(a.posts, a.comments, i, a.fts[i]);
  }

  lemma TouchSame(db: Db, p: Id, at: int)
    requires p in db.posts
    ensures SameContent(db, Touch(db, p, at)) && Touch(db, p, at).side == db.side
  {
  }

  lemma ThreadChangedSame(db: Db, p: Id, at: int)
    requires ThreadChanged(db, p, at).Some?
    ensures SameContent(db, ThreadChanged(db, p, at).value) && ThreadChanged(db, p, at).value.side == db.side
  {
    TouchSame(db, p, at);
    if db.posts[p].continues.Some? {
      TouchSame(Touch(db, p, at), db.posts[p].continues.value, at);
    }
  }

  /** With no dangling updates, threadChanged cannot fail. */
  lemma ThreadChangedWorks(db: Db, p: Id, at: int)
    requires UpdatesOneDeep(db.posts) && p in db.posts
    ensures ThreadChanged(db, p, at).Some? && SameContent(db, ThreadChanged(db, p, at).value)
  {
    assert UpdateFine(db.posts, p);
    ThreadChangedSame(db, p, at);
  }

  /** With the invariant it cannot fail, and keeps it. */
  lemma ThreadChangedOk(db: Db, p: Id, at: int)
    requires ContentOk(db) && p in db.posts
    ensures ThreadChanged(db, p, at).Some? && ContentOk(ThreadChanged(db, p, at).value)
    ensures SameContent(db, ThreadChanged(db, p, at).value)
  {
    ThreadChangedWorks(db, p, at);
    SameContentOk(db, ThreadChanged(db, p, at).value);
  }

  // ---- One row changes ----

  function One(b: bool): int { if b then 1 else 0 }

  /** The shown comments of each post when one comment's row is put or replaced. */
  lemma ShownAfter(comments: Comments, id: Id, c: Comment, p: Id)
    requires id in comments ==> comments[id].post == c.post
    ensures |ShownComments(comments[id := c], p)| == |ShownComments(comments, p)| +
              if p == c.post then One(Shown(c.status)) - One(id in comments && Shown(comments[id].status)) else 0
  {
    var was, now := ShownComments(comments, p), ShownComments(comments[id := c], p);
    if p == c.post && Shown(c.status) {
      assert now == was + {id};
    } else if p == c.post {
      assert now == was - {id};
    } else {
      assert now == was;
    }
  }

  /** How a post's row may change when a comment of it comes, goes or changes. */
  lemma PutCommentCounts(posts: Posts, posts': Posts, comments: Comments, id: Id, c: Comment)
    requires CountsRight(posts, comments) && CommentsHavePosts(posts, comments)
    requires c.post in posts && (id in comments ==> comments[id].post == c.post)
    requires var delta := One(Shown(c.status)) - One(id in comments && Shown(comments[id].status));
             posts' == posts[c.post := posts[c.post].(commentCount := posts[c.post].commentCount + delta)]
    ensures CountsRight(posts', comments[id := c]) && CommentsHavePosts(posts', comments[id := c])
  {
    forall p <- posts' ensures posts'[p].commentCount == |ShownComments(comments[id := c], p)| {
      ShownAfter(comments, id, c, p);
    }
  }

  /** What a post's index row becomes when the post does. */
  lemma PutPostIndex(posts: Posts, comments: Comments, fts: map<Id, Id>, id: Id, p: Post)
    requires IndexSound(posts, comments, fts) && id !in comments && (id !in posts ==> id !in fts)
    ensures IndexSound(posts[id := p], comments, fts - {id})
    ensures Shown(p.status) ==> IndexSound(posts[id := p], comments, fts[id := id])
    ensures id in posts && Shown(p.status) == Shown(posts[id].status) ==> IndexSound(posts[id := p], comments, fts)
    ensures id !in posts ==> IndexSound(posts[id := p], comments, fts)
  {
  }

  lemma PutCommentIndex(posts: Posts, comments: Comments, fts: map<Id, Id>, id: Id, c: Comment)
    requires IndexSound(posts, comments, fts) && id !in posts && (id !in comments ==> id !in fts) && c.post != 0
    ensures IndexSound(posts, comments[id := c], fts - {id})
    ensures Shown(c.status) ==> IndexSound(posts, comments[id := c], fts[id := c.post])
    ensures id in comments && Shown(c.status) == Shown(comments[id].status) ==>
              IndexSound(posts, comments[id := c], fts)
    ensures id !in comments ==> IndexSound(posts, comments[id := c], fts)
  {
  }

  /** The search index does not depend on counters. */
  lemma IndexIgnoresCounts(posts: Posts, posts': Posts, comments: Comments, fts: map<Id, Id>)
    requires IndexSound(posts, comments, fts)
    requires posts.Keys == posts'.Keys && forall p <- posts :: posts'[p].status == posts[p].status
    ensures IndexSound(posts', comments, fts)
  {
  }

  /** A post's row may be replaced in place by one that differs in text, digest, marks, status
      or versions only. */
  predicate SameLinks(p: Post, q: Post) {
    p.commentCount == q.commentCount && p.continues == q.continues && p.originRef == q.originRef
  }

  lemma PutPostRows(posts: Posts, comments: Comments, refs: map<string, Id>, id: Id, p: Post)
    requires CommentsHavePosts(posts, comments) && CountsRight(posts, comments) && PostsFine(posts)
    requires UpdatesOneDeep(posts) && PostRefsRight(posts, refs)
    requires id in posts && PostFine(p) && SameLinks(p, posts[id])
    ensures var posts' := posts[id := p];
            CommentsHavePosts(posts', comments) && CountsRight(posts', comments) && PostsFine(posts') &&
            UpdatesOneDeep(posts') && PostRefsRight(posts', refs)
  {
    UpdatesDependOnLinks(posts, posts[id := p]);
    PostRefsDependOnRefs(posts, posts[id := p], refs);
  }

  /** The index row of an item that was put: gone, or right, or untouched if nothing changed. */
  predicate IndexFollows(fts: map<Id, Id>, fts': map<Id, Id>, i: Id, post: Id, was: bool, now: bool) {
    || fts' == fts - {i}
    || (now && fts' == fts[i := post])
    || (was == now && fts' == fts)
  }

  lemma PutPostOk(db: Db, db': Db, id: Id, p: Post)
    requires ContentOk(db) && id in db.posts && PostFine(p) && SameLinks(p, db.posts[id])
    requires db'.posts == db.posts[id := p] && db'.comments == db.comments
    requires db'.postRefs == db.postRefs && db'.commentRefs == db.commentRefs
    requires IndexFollows(db.fts, db'.fts, id, id, Shown(db.posts[id].status), Shown(p.status))
    ensures ContentOk(db')
  {
    PutPostIndex(db.posts, db.comments, db.fts, id, p);
    PutPostRows(db.posts, db.comments, db.postRefs, id, p);
  }

  lemma CountRows(posts: Posts, refs: map<string, Id>, id: Id, n: int)
    requires PostsFine(posts) && UpdatesOneDeep(posts) && PostRefsRight(posts, refs) && id in posts
    ensures var posts' := posts[id := posts[id].(commentCount := n)];
            PostsFine(posts') && UpdatesOneDeep(posts') && PostRefsRight(posts', refs)
  {
    UpdatesDependOnLinks(posts, posts[id := posts[id].(commentCount := n)]);
    PostRefsDependOnRefs(posts, posts[id := posts[id].(commentCount := n)], refs);
  }

  lemma PutCommentRows(comments: Comments, refs: map<string, Id>, id: Id, c: Comment)
    requires CommentRefsRight(comments, refs) && id in comments && c.originRef == comments[id].originRef
    requires CommentsFine(comments) && CommentFine(c)
    ensures CommentRefsRight(comments[id := c], refs) && CommentsFine(comments[id := c])
  {
    CommentRefsDependOnRefs(comments, comments[id := c], refs);
  }

  /** The index when a comment's row is put and a counter moves. */
  lemma PutCommentIndexed(db: Db, db': Db, id: Id, c: Comment, n: int)
    requires IndexSound(db.posts, db.comments, db.fts) && c.post in db.posts && c.post != 0 && id !in db.posts
    requires if id in db.comments then c.post == db.comments[id].post else id !in db.fts
    requires db'.comments == db.comments[id := c]
    requires db'.posts == db.posts[c.post := db.posts[c.post].(commentCount := n)]
    requires IndexFollows(db.fts, db'.fts, id, c.post, id in db.comments && Shown(db.comments[id].status),
                          Shown(c.status))
    ensures IndexSound(db'.posts, db'.comments, db'.fts)
  {
  }

  /** A comment's row may be replaced in place, with its post's counter following. */
  lemma PutCommentOk(db: Db, db': Db, id: Id, c: Comment)
    requires ContentOk(db) && id in db.comments && CommentFine(c)
    requires c.post == db.comments[id].post && c.originRef == db.comments[id].originRef
    requires db'.comments == db.comments[id := c]
    requires db'.posts == db.posts[c.post := db.posts[c.post].(commentCount :=
               db.posts[c.post].commentCount + (One(Shown(c.status)) - One(Shown(db.comments[id].status))))]
    requires db'.postRefs == db.postRefs && db'.commentRefs == db.commentRefs
    requires IndexFollows(db.fts, db'.fts, id, c.post, Shown(db.comments[id].status), Shown(c.status))
    ensures ContentOk(db')
  {
    PutCommentCounts(db.posts, db'.posts, db.comments, id, c);
    PutCommentIndexed(db, db', id, c, db'.posts[c.post].commentCount);
    CountRows(db.posts, db.postRefs, c.post, db'.posts[c.post].commentCount);
    PutCommentRows(db.comments, db.commentRefs, id, c);
  }

  // ---- Status changes ----

  /** A status change with everything that should go with it. */
  function Restatus(db: Db, item: Item, to: Status, purgeAfter: Option<int>): Db
    requires Exists(db, item) && ThreadOf(db, item) in db.posts
  {
    var post := ThreadOf(db, item);
    var fts := if Shown(to) then db.fts[item.id := post] else db.fts - {item.id};
    if item.kind == APost then
      db.(posts := db.posts[post := db.posts[post].(status := to, purgeAfter := purgeAfter)], fts := fts)
    else
      var n := db.posts[post].commentCount + (One(Shown(to)) - One(Shown(StatusOf(db, item))));
      db.(comments := db.comments[item.id := db.comments[item.id].(status := to, purgeAfter := purgeAfter)],
          posts := db.posts[post := db.posts[post].(commentCount := n)], fts := fts)
  }

  lemma RestatusOk(db: Db, item: Item, to: Status, purgeAfter: Option<int>)
    requires ContentOk(db) && Exists(db, item)
    requires purgeAfter.Some? <==> Gone(to)
    requires Cleared(db, item) ==> Undisturbed(to)
    ensures ThreadOf(db, item) in db.posts && ContentOk(Restatus(db, item, to, purgeAfter))
  {
    if item.kind == APost {
      PutPostOk(db, Restatus(db, item, to, purgeAfter), item.id,
                db.posts[item.id].(status := to, purgeAfter := purgeAfter));
    } else {
      RestatusComment(db, item.id, to, purgeAfter);
    }
  }

  lemma RestatusComment(db: Db, id: Id, to: Status, purgeAfter: Option<int>)
    requires ContentOk(db) && id in db.comments
    requires purgeAfter.Some? <==> Gone(to)
    requires db.comments[id].aiCleared ==> Undisturbed(to)
    ensures db.comments[id].post in db.posts && ContentOk(Restatus(db, Item(AComment, id), to, purgeAfter))
  {
    var db' := Restatus(db, Item(AComment, id), to, purgeAfter);
    var c := db.comments[id].(status := to, purgeAfter := purgeAfter);
    assert CommentFine(c) by { assert CommentFine(db.comments[id]); }
    PutCommentOk(db, db', id, c);
  }

  /** What the invariant says of one item. */
  lemma ItemFacts(db: Db, item: Item)
    requires ContentOk(db) && Exists(db, item)
    ensures ThreadOf(db, item) in db.posts
    ensures PurgeOf(db, item).Some? <==> Gone(StatusOf(db, item))
    ensures Cleared(db, item) ==> Undisturbed(StatusOf(db, item))
    ensures UpdatesOneDeep(db.posts)
  {
  }

  /** changeStatus writes what Restatus describes, then tells the thread. */
  lemma ChangeStatusIs(db: Db, item: Item, to: Status, at: int)
    requires Exists(db, item) && StatusOf(db, item) != to && ThreadOf(db, item) in db.posts
    ensures ChangeStatus(db, item, to, at) ==
            ThreadChanged(Restatus(db, item, to, PurgeOf(db, item)), ThreadOf(db, item), at)
  {
    hide ThreadChanged;
    if item.kind == AComment {
      var p := db.posts[ThreadOf(db, item)];
      assert p.(commentCount := p.commentCount + 0) == p;
      assert db.posts[ThreadOf(db, item) := p] == db.posts;
    }
  }

  /** How an item reads, whatever else happened around it. */
  ghost predicate Reads(db: Db, item: Item, status: Status, cleared: bool) {
    Exists(db, item) && StatusOf(db, item) == status && Cleared(db, item) == cleared
  }

  lemma RestatusReads(db: Db, item: Item, to: Status, purge: Option<int>)
    requires Exists(db, item) && ThreadOf(db, item) in db.posts
    ensures Reads(Restatus(db, item, to, purge), item, to, Cleared(db, item))
  {
    if item.kind == APost { 
      assert Restatus(db, item, to, purge).posts[item.id] == db.posts[item.id].(status := to, purgeAfter := purge);
      } else { 
      assert Restatus(db, item, to, purge).comments[item.id] == db.comments[item.id].(status := to, purgeAfter := purge);
      }
  }

  lemma SameContentReads(a: Db, b: Db, item: Item, status: Status, cleared: bool)
    requires SameContent(a, b) && Reads(a, item, status, cleared)
    ensures Reads(b, item, status, cleared)
  {
  }

  lemma ChangeStatusOk(db: Db, item: Item, to: Status, at: int)
    requires ContentOk(db) && Exists(db, item) && !Gone(to) && !Gone(StatusOf(db, item))
    requires Cleared(db, item) ==> Undisturbed(to)
    ensures ChangeStatus(db, item, to, at).Some? && ContentOk(ChangeStatus(db, item, to, at).value)
    ensures Reads(ChangeStatus(db, item, to, at).value, item, to, Cleared(db, item))
  {
    ItemFacts(db, item);
    hide ContentOk, ThreadChanged, SameContent, Restatus;
    if StatusOf(db, item) != to {
      var put := Restatus(db, item, to, PurgeOf(db, item));
      RestatusOk(db, item, to, PurgeOf(db, item));
      RestatusReads(db, item, to, PurgeOf(db, item));
      ChangeStatusIs(db, item, to, at);
      hide ChangeStatus, Reads;
      ThreadChangedOk(put, ThreadOf(db, item), at);
      SameContentReads(put, ThreadChanged(put, ThreadOf(db, item), at).value, item, to, Cleared(db, item));
    }
  }

  /** A counter moved after the thread was told. */
  function Counted(changed: Option<Db>, post: Id, delta: int): Option<Db> {
    if changed.Some? && delta != 0 && post in changed.value.posts then Some(AddCount(changed.value, post, delta))
    else changed
  }

  /** SoftDelete and Restore: the thread is told before the counter moves. */
  function Afterwards(db: Db, item: Item, to: Status, purge: Option<int>, at: int): Option<Db>
    requires Exists(db, item) && ThreadOf(db, item) in db.posts
  {
    var post := ThreadOf(db, item);
    var fts := if Shown(to) then db.fts[item.id := post] else db.fts - {item.id};
    Counted(ThreadChanged(SetStatus(db, item, to, purge).(fts := fts), post, at), post,
            if item.kind == APost then 0 else One(Shown(to)) - One(Shown(StatusOf(db, item))))
  }

  /** Counters may move before or after thread versions do. */
  lemma CountLater(put: Db, changed: Db, p: Id, delta: int)
    requires SameContent(put, changed) && p in put.posts
    ensures Counted(Some(changed), p, delta).Some?
    ensures SameContent(AddCount(put, p, delta), Counted(Some(changed), p, delta).value)
  {
    if delta == 0 {
      NoCount(put.posts, p);
      SameContentIgnoresJobs(AddCount(put, p, 0), put, changed);
    } else {
      CountBoth(put, changed, p, delta);
    }
  }

  lemma CountBoth(put: Db, changed: Db, p: Id, delta: int)
    requires SameContent(put, changed) && p in put.posts
    ensures p in changed.posts && SameContent(AddCount(put, p, delta), AddCount(changed, p, delta))
  {
  }

  lemma AfterwardsPost(db: Db, id: Id, to: Status, purge: Option<int>, at: int)
    requires id in db.posts
    ensures Afterwards(db, Item(APost, id), to, purge, at) ==
            ThreadChanged(Restatus(db, Item(APost, id), to, purge), id, at)
  {
  }

  /** A comment's row and index row after a status change, before its post's counter moves. */
  function Uncounted(db: Db, id: Id, to: Status, purge: Option<int>): Db
    requires id in db.comments
  {
    db.(comments := db.comments[id := db.comments[id].(status := to, purgeAfter := purge)],
        fts := if Shown(to) then db.fts[id := db.comments[id].post] else db.fts - {id})
  }

  lemma AfterwardsComment(db: Db, id: Id, to: Status, purge: Option<int>, at: int)
    requires id in db.comments && db.comments[id].post in db.posts && UpdatesOneDeep(db.posts)
    ensures Afterwards(db, Item(AComment, id), to, purge, at).Some?
    ensures SameContent(Restatus(db, Item(AComment, id), to, purge),
                        Afterwards(db, Item(AComment, id), to, purge, at).value)
  {
    var post, put := db.comments[id].post, Uncounted(db, id, to, purge);
    var delta := One(Shown(to)) - One(Shown(db.comments[id].status));
    assert put.posts == db.posts;
    RestatusCommentIs(db, id, to, purge);
    AfterwardsCommentIs(db, id, to, purge, at);
    hide ThreadChanged, SameContent, UpdatesOneDeep, Restatus, Afterwards, AddCount, Counted, Uncounted;
    ThreadChangedWorks(put, post, at);
    CountLater(put, ThreadChanged(put, post, at).value, post, delta);
  }

  lemma AfterwardsCommentIs(db: Db, id: Id, to: Status, purge: Option<int>, at: int)
    requires id in db.comments && db.comments[id].post in db.posts
    ensures Afterwards(db, Item(AComment, id), to, purge, at) ==
      Counted(ThreadChanged(Uncounted(db, id, to, purge), db.comments[id].post, at),
              db.comments[id].post, One(Shown(to)) - One(Shown(db.comments[id].status)))
  {
  }

  lemma RestatusCommentIs(db: Db, id: Id, to: Status, purge: Option<int>)
    requires id in db.comments && db.comments[id].post in db.posts
    ensures Restatus(db, Item(AComment, id), to, purge) ==
      AddCount(Uncounted(db, id, to, purge), db.comments[id].post, One(Shown(to)) - One(Shown(db.comments[id].status)))
  {
  }

  /** It comes to the same as moving the counter first. */
  lemma AfterwardsSame(db: Db, item: Item, to: Status, purge: Option<int>, at: int)
    requires Exists(db, item) && ThreadOf(db, item) in db.posts && UpdatesOneDeep(db.posts)
    ensures Afterwards(db, item, to, purge, at).Some?
    ensures SameContent(Restatus(db, item, to, purge), Afterwards(db, item, to, purge, at).value)
  {
    if item.kind == APost {
      assert item == Item(APost, item.id);
      var put := Restatus(db, item, to, purge);
      UpdatesDependOnLinks(db.posts, put.posts);
      AfterwardsPost(db, item.id, to, purge, at);
      hide ThreadChanged, SameContent, Afterwards, Restatus;
      ThreadChangedWorks(put, item.id, at);
    } else {
      assert item == Item(AComment, item.id);
      AfterwardsComment(db, item.id, to, purge, at);
    }
  }

  lemma AfterwardsOk(db: Db, item: Item, to: Status, purge: Option<int>, at: int)
    requires ContentOk(db) && Exists(db, item) && (purge.Some? <==> Gone(to)) && (Cleared(db, item) ==> Undisturbed(to))
    ensures ThreadOf(db, item) in db.posts
    ensures Afterwards(db, item, to, purge, at).Some? && ContentOk(Afterwards(db, item, to, purge, at).value)
    ensures Reads(Afterwards(db, item, to, purge, at).value, item, to, Cleared(db, item))
  {
    hide ContentOk, ThreadChanged, SameContent, Afterwards, Restatus, Reads;
    ItemFacts(db, item);
    RestatusOk(db, item, to, purge);
    RestatusReads(db, item, to, purge);
    AfterwardsSame(db, item, to, purge, at);
    var end := Afterwards(db, item, to, purge, at).value;
    SameContentOk(Restatus(db, item, to, purge), end);
    SameContentReads(Restatus(db, item, to, purge), end, item, to, Cleared(db, item));
  }

  /** SoftDelete hides an existing item that is not already gone, and always succeeds. */
  lemma SoftDeleteOk(db: Db, item: Item, byMod: bool, at: int)
    requires ContentOk(db)
    ensures SoftDelete(db, item, byMod, at).Some? <==> Exists(db, item)
    ensures Exists(db, item) ==> ContentOk(SoftDelete(db, item, byMod, at).value)
    ensures Exists(db, item) && !Gone(StatusOf(db, item)) ==>
              Reads(SoftDelete(db, item, byMod, at).value, item, if byMod then Removed else Deleted, Cleared(db, item))
  {
    hide ContentOk, ThreadChanged;
    if Exists(db, item) && !Gone(StatusOf(db, item)) {
      var keep := if byMod then MOD_REMOVE_KEEP else AUTHOR_DELETE_KEEP;
      AfterwardsOk(db, item, if byMod then Removed else Deleted, Some(at + keep), at);
    }
  }

  lemma RestoreOk(db: Db, item: Item, at: int)
    requires ContentOk(db)
    ensures Restore(db, item, at).Some? <==> Exists(db, item)
    ensures Exists(db, item) ==> ContentOk(Restore(db, item, at).value)
    ensures Exists(db, item) ==> Reads(Restore(db, item, at).value, item, Visible, Cleared(db, item))
  {
    hide ContentOk, ThreadChanged;
    if Exists(db, item) && StatusOf(db, item) != Visible {
      AfterwardsOk(db, item, Visible, None, at);
    }
  }

  // ---- New items and edits ----

  /** A new row, with the reference it brings if any. */
  lemma InsertPostRefs(posts: Posts, refs: map<string, Id>, id: Id, p: Post)
    requires PostRefsRight(posts, refs) && id !in posts
    requires p.originRef.Some? ==> p.originRef.value !in refs
    ensures PostRefsRight(posts[id := p], if p.originRef.Some? then refs[p.originRef.value := id] else refs)
  {
    var posts', refs' := posts[id := p], if p.originRef.Some? then refs[p.originRef.value := id] else refs;
    forall r | r in refs' ensures PostRefFine(posts', refs', r) {
      if r in refs { assert PostRefFine(posts, refs, r); }
    }
    forall q | q in posts' ensures PostListed(posts', refs', q) {
      if q != id { assert PostListed(posts, refs, q); }
    }
  }

  lemma InsertCommentRefs(comments: Comments, refs: map<string, Id>, id: Id, c: Comment)
    requires CommentRefsRight(comments, refs) && id !in comments
    requires c.originRef.Some? ==> c.originRef.value !in refs
    ensures CommentRefsRight(comments[id := c], if c.originRef.Some? then refs[c.originRef.value := id] else refs)
  {
    var comments', refs' := comments[id := c], if c.originRef.Some? then refs[c.originRef.value := id] else refs;
    forall r | r in refs' ensures CommentRefFine(comments', refs', r) {
      if r in refs { assert CommentRefFine(comments, refs, r); }
    }
    forall q | q in comments' ensures CommentListed(comments', refs', q) {
      if q != id { assert CommentListed(comments, refs, q); }
    }
  }

  lemma InsertPostRows(posts: Posts, comments: Comments, id: Id, p: Post)
    requires CommentsHavePosts(posts, comments) && CountsRight(posts, comments) && PostsFine(posts) &&
             UpdatesOneDeep(posts)
    requires id !in posts && PostFine(p) && p.commentCount == 0 && p.continues.None?
    ensures var posts' := posts[id := p];
            CommentsHavePosts(posts', comments) && CountsRight(posts', comments) && PostsFine(posts') &&
            UpdatesOneDeep(posts')
  {
    assert ShownComments(comments, id) == {};
    var posts' := posts[id := p];
    forall q | q in posts' ensures UpdateFine(posts', q) {
      if q != id { assert UpdateFine(posts, q); }
    }
  }

  lemma InsertPostOk(db: Db, db': Db, id: Id, p: Post)
    requires ContentOk(db) && FreshId(db, id)
    requires PostFine(p) && p.commentCount == 0 && p.continues.None? && p.originRef.None?
    requires db'.posts == db.posts[id := p] && db'.comments == db.comments
    requires db'.postRefs == db.postRefs && db'.commentRefs == db.commentRefs
    requires db'.fts == if Shown(p.status) then db.fts[id := id] else db.fts
    ensures ContentOk(db')
  {
    InsertPostRows(db.posts, db.comments, id, p);
    InsertPostRefs(db.posts, db.postRefs, id, p);
    PutPostIndex(db.posts, db.comments, db.fts, id, p);
  }

  lemma CreatePostOk(db: Db, id: Id, user: Id, title: string, body: string, images: seq<Id>, at: int)
    requires ContentOk(db) && FreshId(db, id)
    ensures var r := CreatePost(db, id, user, title, body, images, at); r.Some? ==> ContentOk(r.value)
  {
    var r := CreatePost(db, id, user, title, body, images, at);
    if r.Some? {
      InsertPostOk(db, r.value, id, r.value.posts[id]);
    }
  }

  function BumpVersion(db: Db, p: Id): Db
    requires p in db.posts
  {
    db.(posts := db.posts[p := db.posts[p].(version := db.posts[p].version + 1)])
  }

  lemma PostEditedSame(db: Db, p: Id, at: int)
    requires UpdatesOneDeep(db.posts) && p in db.posts
    ensures PostEdited(db, p, at).Some? && SameContent(BumpVersion(db, p), PostEdited(db, p, at).value)
  {
    hide ThreadChanged, SameContent;
    UpdatesDependOnLinks(db.posts, Marked(db, p, at).posts);
    ThreadChangedWorks(Marked(db, p, at), p, at);
    SameContentIgnoresJobs(BumpVersion(db, p), Marked(db, p, at), PostEdited(db, p, at).value);
  }

  lemma TablesSame(a: Db, b: Db)
    requires b.posts == a.posts && b.comments == a.comments && b.fts == a.fts && b.postRefs == a.postRefs &&
             b.commentRefs == a.commentRefs
    ensures SameContent(a, b)
  {
  }

  lemma SameContentIgnoresJobs(a: Db, a': Db, b: Db)
    requires SameContent(a', b) && a'.posts == a.posts && a'.comments == a.comments && a'.fts == a.fts
    requires a'.postRefs == a.postRefs && a'.commentRefs == a.commentRefs
    ensures SameContent(a, b)
  {
  }

  /** The same change of the index on both sides. */
  lemma SameContentIndex(a: Db, b: Db, fts: map<Id, Id>)
    requires SameContent(a, b)
    ensures SameContent(a.(fts := fts), b.(fts := fts)) && b.fts == a.fts
  {
  }

  /** A post's row and index row after an edit, apart from its thread version. */
  function Edited(db: Db, id: Id, title: string, body: string): Db
    requires id in db.posts
  {
    var p := db.posts[id].(title := title, body := body, version := db.posts[id].version + 1);
    db.(posts := db.posts[id := p], fts := if Shown(p.status) then db.fts[id := id] else db.fts)
  }

  lemma SavedIs(db: Db, item: Item, at: int)
    requires SaveRevision(db, item, at).Some?
    ensures SaveRevision(db, item, at).value == db.(side := SaveRevision(db, item, at).value.side)
  {
  }

  lemma RetitledThenBumped(posts: Posts, id: Id, title: string, body: string)
    requires id in posts
    ensures var put := posts[id := posts[id].(title := title, body := body)];
            put[id := put[id].(version := put[id].version + 1)] ==
            posts[id := posts[id].(title := title, body := body, version := posts[id].version + 1)]
  {
  }

  lemma EditPostIs(db: Db, id: Id, title: string, body: string, at: int)
    requires EditPost(db, id, title, body, at).Some? && UpdatesOneDeep(db.posts)
    ensures SameContent(Edited(db, id, title, body), EditPost(db, id, title, body, at).value)
  {
    hide PostEdited, SaveRevision, SameContent, UpdatesOneDeep;
    SavedIs(db, Item(APost, id), at);
    var saved := SaveRevision(db, Item(APost, id), at).value;
    UpdatesDependOnLinks(db.posts, Retitled(saved, id, title, body).posts);
    PostEditedSame(Retitled(saved, id, title, body), id, at);
    RetitledThenBumped(db.posts, id, title, body);
    EditIndexed(db, id, title, body, BumpVersion(Retitled(saved, id, title, body), id),
                PostEdited(Retitled(saved, id, title, body), id, at).value);
  }

  lemma EditIndexed(db: Db, id: Id, title: string, body: string, bumped: Db, edited: Db)
    requires id in db.posts && SameContent(bumped, edited)
    requires bumped.posts == Edited(db, id, title, body).posts && bumped.comments == db.comments && bumped.fts == db.fts
    requires bumped.postRefs == db.postRefs && bumped.commentRefs == db.commentRefs
    ensures SameContent(Edited(db, id, title, body),
                        if Shown(db.posts[id].status) then edited.(fts := edited.fts[id := id]) else edited)
  {
  }

  lemma EditPostOk(db: Db, id: Id, title: string, body: string, at: int)
    requires ContentOk(db) && EditPost(db, id, title, body, at).Some?
    ensures ContentOk(EditPost(db, id, title, body, at).value)
  {
    hide ContentOk, PostEdited, SaveRevision, SameContent;
    ItemFacts(db, Item(APost, id));
    PostRowFine(db, id);
    PutPostOk(db, Edited(db, id, title, body), id, Edited(db, id, title, body).posts[id]);
    EditPostIs(db, id, title, body, at);
    SameContentOk(Edited(db, id, title, body), EditPost(db, id, title, body, at).value);
  }

  lemma PostRowFine(db: Db, id: Id)
    requires ContentOk(db) && id in db.posts
    ensures PostFine(db.posts[id])
  {
  }

  lemma CommentRowFine(db: Db, id: Id)
    requires ContentOk(db) && id in db.comments
    ensures CommentFine(db.comments[id]) && db.comments[id].post in db.posts
  {
  }

  lemma InsertCommentOk(db: Db, db': Db, id: Id, c: Comment)
    requires ContentOk(db) && FreshId(db, id) && c.post in db.posts
    requires CommentFine(c) && c.originRef.None? && Shown(c.status)
    requires db'.comments == db.comments[id := c]
    requires db'.posts == db.posts[c.post := db.posts[c.post].(commentCount := db.posts[c.post].commentCount + 1)]
    requires db'.postRefs == db.postRefs && db'.commentRefs == db.commentRefs
    requires db'.fts == db.fts[id := c.post]
    ensures ContentOk(db')
  {
    PutCommentCounts(db.posts, db'.posts, db.comments, id, c);
    PutCommentIndexed(db, db', id, c, db'.posts[c.post].commentCount);
    CountRows(db.posts, db.postRefs, c.post, db'.posts[c.post].commentCount);
    InsertCommentRefs(db.comments, db.commentRefs, id, c);
  }

  lemma CreateCommentOk(db: Db, id: Id, post: Id, parent: Id, user: Id, body: string, image: Option<Id>, at: int)
    requires ContentOk(db) && FreshId(db, id) && CreateComment(db, id, post, parent, user, body, image, at).Some?
    ensures ContentOk(CreateComment(db, id, post, parent, user, body, image, at).value)
  {
    hide ContentOk, ThreadChanged, SameContent, ReplyParent, FreshImages, FreshId, WithImages;
    var images := if image.Some? then [image.value] else [];
    var c := Comment(post, ReplyParent(db, post, parent).value, user, body, Visible, None, 1, false, None);
    var added := AddCount(db.(comments := db.comments[id := c], side := WithImages(db.side, post, Some(id), images)), post, 1);
    ItemFacts(db, Item(APost, post));
    UpdatesDependOnLinks(db.posts, added.posts);
    ThreadChangedWorks(added, post, at);
    SameContentIndex(added, ThreadChanged(added, post, at).value, db.fts[id := post]);
    InsertCommentOk(db, added.(fts := db.fts[id := post]), id, c);
    SameContentOk(added.(fts := db.fts[id := post]), CreateComment(db, id, post, parent, user, body, image, at).value);
  }

  lemma NoCount(posts: Posts, p: Id)
    requires p in posts
    ensures posts[p := posts[p].(commentCount := posts[p].commentCount + 0)] == posts
  {
  }

  /** A comment's text replaced in place; its index row follows if it is shown. */
  lemma RewrittenOk(db: Db, db': Db, id: Id, body: string, version: nat)
    requires ContentOk(db) && id in db.comments
    requires db'.comments == db.comments[id := db.comments[id].(body := body, version := version)]
    requires db'.posts == db.posts && db'.postRefs == db.postRefs && db'.commentRefs == db.commentRefs
    requires db'.fts == if Shown(db.comments[id].status) then db.fts[id := db.comments[id].post] else db.fts
    ensures ContentOk(db')
  {
    CommentRowFine(db, id);
    hide ContentOk;
    NoCount(db.posts, db.comments[id].post);
    PutCommentOk(db, db', id, db.comments[id].(body := body, version := version));
  }

  lemma RewrittenIs(db: Db, id: Id, body: string, at: int)
    requires id in db.comments
    ensures var put := Rewritten(db, id, body, at); var c := db.comments[id];
            put.comments == db.comments[id := c.(body := body, version := c.version + 1)] && put.posts == db.posts &&
            put.fts == db.fts && put.postRefs == db.postRefs && put.commentRefs == db.commentRefs
  {
  }

  /** What an edit of a comment comes to: its row rewritten, its thread told, its index row put. */
  lemma EditCommentIs(db: Db, id: Id, body: string, at: int)
    requires EditComment(db, id, body, at).Some?
    ensures var saved, c := SaveRevision(db, Item(AComment, id), at), db.comments[id];
            saved.Some? && id in saved.value.comments &&
            var told := ThreadChanged(Rewritten(saved.value, id, body, at), c.post, at);
            told.Some? && EditComment(db, id, body, at).value ==
              if Shown(c.status) then told.value.(fts := told.value.fts[id := c.post]) else told.value
  {
    hide ThreadChanged, SaveRevision, Rewritten;
  }

  lemma EditCommentOk(db: Db, id: Id, body: string, at: int)
    requires ContentOk(db) && EditComment(db, id, body, at).Some?
    ensures ContentOk(EditComment(db, id, body, at).value)
  {
    hide ContentOk, ThreadChanged, SameContent, SaveRevision, Rewritten, UpdatesOneDeep;
    EditCommentIs(db, id, body, at);
    assert id in db.comments;
    hide EditComment;
    SavedIs(db, Item(AComment, id), at);
    ItemFacts(db, Item(AComment, id));
    var c := db.comments[id];
    var put := Rewritten(SaveRevision(db, Item(AComment, id), at).value, id, body, at);
    RewrittenIs(SaveRevision(db, Item(AComment, id), at).value, id, body, at);
    ThreadChangedWorks(put, c.post, at);
    var told, fts := ThreadChanged(put, c.post, at).value, if Shown(c.status) then db.fts[id := c.post] else db.fts;
    SameContentIndex(put, told, fts);
    RewrittenOk(db, put.(fts := fts), id, body, c.version + 1);
    SameContentOk(put.(fts := fts), told.(fts := fts));
  }

  // ---- Moderation ----

  lemma SetClearedOk(db: Db, item: Item)
    requires ContentOk(db) && Exists(db, item) && StatusOf(db, item) == Visible
    ensures ContentOk(SetCleared(db, item))
  {
    if item.kind == APost {
      PutPostOk(db, SetCleared(db, item), item.id, db.posts[item.id].(aiCleared := true));
    } else {
      var c := db.comments[item.id].(aiCleared := true);
      assert CommentFine(c) by { assert CommentFine(db.comments[item.id]); }
      assert db.posts[c.post].(commentCount := db.posts[c.post].commentCount + 0) == db.posts[c.post];
      PutCommentOk(db, SetCleared(db, item), item.id, c);
    }
  }

  lemma ApplyVerdictOk(db: Db, item: Item, verdict: Verdict, at: int)
    requires ContentOk(db)
    ensures var r := ApplyVerdict(db, item, verdict, at); r.Some? ==> ContentOk(r.value)
  {
    if verdict != Fine && Exists(db, item) && !Cleared(db, item) && Shown(StatusOf(db, item)) {
      ChangeStatusOk(db, item, if verdict == Violation then AutoHidden else Flagged, at);
    }
  }

  lemma SetCommentCheckOk(db: Db, id: Id, worker: string, version: nat, verdict: Verdict, at: int)
    requires ContentOk(db)
    ensures var r := SetCommentCheck(db, id, worker, version, verdict, at); r.Some? ==> ContentOk(r.value)
  {
    if id in db.comments {
      var finished := db.(jobs := Finish(db.jobs, JobKey(CheckComment, id), worker, version, db.comments[id].version, at));
      ApplyVerdictOk(finished, Item(AComment, id), verdict, at);
    }
  }

  lemma ApproveOk(db: Db, item: Item, at: int)
    requires ContentOk(db) && Approve(db, item, at).Some?
    ensures ContentOk(Approve(db, item, at).value)
  {
    hide ContentOk, ChangeStatus, SetCleared, VersionOf, Schedule;
    ClearForGoodOk(db, item, at);
    var cleared := SetCleared(ChangeStatus(db, item, Visible, at).value, item);
    JobsDoNotMatter(cleared, cleared.(jobs := Approve(db, item, at).value.jobs));
  }

  lemma ReportOk(db: Db, item: Item, user: Id, at: int)
    requires ContentOk(db)
    ensures var r := Report(db, item, user, at); r.Some? ==> ContentOk(r.value)
  {
    var reported := db.(side := db.side.(reports := db.side.reports + {(item, user)}));
    if Exists(db, item) && StatusOf(db, item) == Visible && !Cleared(db, item) {
      ChangeStatusOk(reported, item, Flagged, at);
    }
  }

  /** Showing an item and clearing it for good. */
  lemma ClearForGoodOk(db: Db, item: Item, at: int)
    requires ContentOk(db) && Exists(db, item) && !Gone(StatusOf(db, item))
    ensures ChangeStatus(db, item, Visible, at).Some? && Exists(ChangeStatus(db, item, Visible, at).value, item)
    ensures ContentOk(SetCleared(ChangeStatus(db, item, Visible, at).value, item))
  {
    hide ContentOk, ChangeStatus;
    ChangeStatusOk(db, item, Visible, at);
    SetClearedOk(ChangeStatus(db, item, Visible, at).value, item);
  }

  lemma VoteOk(db: Db, item: Item, user: Id, keep: bool, at: int)
    requires ContentOk(db) && Vote(db, item, user, keep, at).Some?
    ensures ContentOk(Vote(db, item, user, keep, at).value)
  {
    hide ContentOk, ChangeStatus, CanVote, Ballots, SetCleared, SetStatus, PurgeOf;
    var voted := db.(side := db.side.(flagVotes := db.side.flagVotes[(item, user) := keep]));
    SideDoesNotMatter(db, voted.side);
    ItemFacts(voted, item);
    assert StatusOf(voted, item) == Flagged && !Cleared(voted, item);
    ChangeStatusOk(voted, item, AutoHidden, at);
    ClearForGoodOk(voted, item, at);
  }

  /** The job queue is no part of the invariant. */
  lemma JobsDoNotMatter(db: Db, db': Db)
    requires ContentOk(db) && db' == db.(jobs := db'.jobs)
    ensures ContentOk(db')
  {
  }

  /** The tables that hang off posts and comments are no part of the invariant. */
  lemma SideDoesNotMatter(db: Db, side: Side)
    requires ContentOk(db)
    ensures ContentOk(db.(side := side))
  {
  }

  // ---- Links, digests, moves: they leave content alone, or nearly ----

  lemma LinkNoteSame(db: Db, group: Id, host: Id, other: Id, id: Id, ext: nat, at: int)
    ensures var r := LinkNote(db, group, host, other, id, ext, at);
            r.Some? ==> r.value.posts == db.posts && SameContent(db, r.value) && r.value.side == db.side
  {
    hide SameContent, Schedule, NoteVersion, FindNote;
    if FindNote(db.notes, db.sources, group, host, other).Some? {
      if LinkNote(db, group, host, other, id, ext, at).Some? {
        TablesSame(db, LinkNote(db, group, host, other, id, ext, at).value);
      }
    } else {
      if LinkNote(db, group, host, other, id, ext, at).Some? {
        TablesSame(db, LinkNote(db, group, host, other, id, ext, at).value);
      }
    }
  }

  lemma AddLinkSame(db: Db, a: Id, b: Id, auto: bool, noteA: Id, noteB: Id, at: int)
    ensures var r := AddLink(db, a, b, auto, noteA, noteB, at);
            r.Some? ==> r.value.posts == db.posts && SameContent(db, r.value) && r.value.side == db.side
  {
    var key := if a < b then (a, b) else (b, a);
    var linked := db.(links := db.links[key := true]);
    LinkNoteSame(linked, db.group, a, b, noteA, 0, at);
    var one := LinkNote(linked, db.group, a, b, noteA, 0, at);
    if one.Some? {
      LinkNoteSame(one.value, db.group, b, a, noteB, 0, at);
    }
  }

  lemma {:induction false} AddLinksSame(db: Db, post: Id, links: seq<CheckLink>, at: int)
    requires AddLinks(db, post, links, at).Some?
    ensures var r := AddLinks(db, post, links, at).value; r.posts == db.posts && SameContent(db, r) && r.side == db.side
    decreases |links|
  {
    hide AddLink;
    if links != [] {
      AddLinksSame(db, post, links[..|links| - 1], at);
      var before, l := AddLinks(db, post, links[..|links| - 1], at).value, links[|links| - 1];
      if Linkable(before, post, l.other) {
        AddLinkSame(before, post, l.other, true, l.noteHere, l.noteThere, at);
      }
    }
  }

  lemma SetCheckOk(db: Db, id: Id, worker: string, version: nat, verdict: Verdict, links: seq<CheckLink>, at: int)
    requires ContentOk(db)
    ensures var r := SetCheck(db, id, worker, version, verdict, links, at); r.Some? ==> ContentOk(r.value)
  {
    if id in db.posts {
      var finished := db.(jobs := Finish(db.jobs, JobKey(Check, id), worker, version, db.posts[id].version, at));
      ApplyVerdictOk(finished, Item(APost, id), verdict, at);
      var judged := ApplyVerdict(finished, Item(APost, id), verdict, at);
      if judged.Some? && AddLinks(judged.value, id, links, at).Some? {
        AddLinksSame(judged.value, id, links, at);
        SameContentOk(judged.value, AddLinks(judged.value, id, links, at).value);
      }
    }
  }

  lemma SetDigestOk(db: Db, id: Id, worker: string, version: nat, digest: string, at: int)
    requires ContentOk(db) && SetDigest(db, id, worker, version, digest, at).Some?
    ensures ContentOk(SetDigest(db, id, worker, version, digest, at).value)
  {
    hide ContentOk, Finish, Cut;
    var r := SetDigest(db, id, worker, version, digest, at).value;
    PostRowFine(db, id);
    assert db.posts[id := db.posts[id]] == db.posts;
    PutPostOk(db, r, id, r.posts[id]);
  }

  lemma LinkUnder(posts: Posts, id: Id, under: Id)
    requires UpdatesOneDeep(posts) && id in posts && under in posts && under < id
    requires posts[id].continues.None? && posts[under].continues.None?
    requires !exists p <- posts :: posts[p].continues == Some(id)
    ensures UpdatesOneDeep(posts[id := posts[id].(continues := Some(under))])
  {
    var posts' := posts[id := posts[id].(continues := Some(under))];
    forall p | p in posts' ensures UpdateFine(posts', p) {
      assert UpdateFine(posts, p);
    }
  }

  lemma Unlink(posts: Posts, id: Id)
    requires UpdatesOneDeep(posts) && id in posts
    ensures UpdatesOneDeep(posts[id := posts[id].(continues := None)])
  {
    var posts' := posts[id := posts[id].(continues := None)];
    forall p | p in posts' ensures UpdateFine(posts', p) {
      assert UpdateFine(posts, p);
    }
  }

  /** Only a post's place in the outline of updates changes. */
  lemma RelinkOk(db: Db, id: Id, link: Option<Id>)
    requires ContentOk(db) && id in db.posts
    requires UpdatesOneDeep(db.posts[id := db.posts[id].(continues := link)])
    ensures ContentOk(db.(posts := db.posts[id := db.posts[id].(continues := link)]))
  {
    IndexIgnoresCounts(db.posts, db.posts[id := db.posts[id].(continues := link)], db.comments, db.fts);
    PostRefsDependOnRefs(db.posts, db.posts[id := db.posts[id].(continues := link)], db.postRefs);
  }

  lemma MoveUnderOk(db: Db, id: Id, under: Id, at: int)
    requires ContentOk(db) && MoveUnder(db, id, under, at).Some?
    ensures ContentOk(MoveUnder(db, id, under, at).value)
  {
    hide ContentOk, ThreadChanged, SameContent;
    ItemFacts(db, Item(APost, id));
    LinkUnder(db.posts, id, under);
    RelinkOk(db, id, Some(under));
    ThreadChangedOk(db.(posts := db.posts[id := db.posts[id].(continues := Some(under))]), id, at);
  }

  lemma MoveOutOk(db: Db, id: Id, at: int)
    requires ContentOk(db) && MoveOut(db, id, at).Some?
    ensures ContentOk(MoveOut(db, id, at).value)
  {
    hide ContentOk, ThreadChanged, SameContent;
    if db.posts[id].continues.Some? {
      ThreadChangedOk(db, id, at);
      var changed := ThreadChanged(db, id, at).value;
      ItemFacts(changed, Item(APost, id));
      Unlink(changed.posts, id);
      RelinkOk(changed, id, None);
    }
  }
}
