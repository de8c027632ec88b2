/**
 What thread_version promises. A worker on another node reads a thread's version, then its text,
 and hands in what the model wrote; its result counts only if the version is still the same. So
 every command that changes anything a reader of a thread sees must move that thread's version,
 and queue its digest again.
 */
module Versions {
  import opened Types
  import opened Jobs
  import opened Tables
  import opened Commands
  import opened Content

  // ---- What a reader of a thread sees ----

  datatype Line = Line(user: Id, reply: bool, body: string)

  /** A post with its readable comments, as ThreadText writes them out. */
  datatype PostView = PostView(user: Id, title: string, body: string, shown: bool, lines: map<Id, Line>)

  /** A thread: the post, and its shown updates. */
  datatype ThreadView = ThreadView(head: PostView, updates: map<Id, PostView>)

  function Lines(comments: Comments, p: Id): map<Id, Line> {
    map c | c in comments && comments[c].post == p && Shown(comments[c].status) ::
      Line(comments[c].user, comments[c].parent.Some?, comments[c].body)
  }

  function Part(posts: Posts, comments: Comments, p: Id): PostView
    requires p in posts
  {
    PostView(posts[p].user, posts[p].title, posts[p].body, Shown(posts[p].status), Lines(comments, p))
  }

  function ShownUpdates(posts: Posts, p: Id): set<Id> {
    set q | q in posts && posts[q].continues == Some(p) && Shown(posts[q].status)
  }

  function View(posts: Posts, comments: Comments, p: Id): ThreadView
    requires p in posts
  {
    ThreadView(Part(posts, comments, p), map q | q in ShownUpdates(posts, p) :: Part(posts, comments, q))
  }

  function ViewOf(db: Db, p: Id): ThreadView
    requires p in db.posts
  {
    View(db.posts, db.comments, p)
  }

  // ---- The promise ----

  function DigestKey(p: Id): JobKey { JobKey(Digest, p) }

  /** The thread's digest waits to be written, for the version it now has. */
  predicate DigestOpen(posts: Posts, jobs: Queue, p: Id)
    requires p in posts
  {
    DigestKey(p) in jobs && jobs[DigestKey(p)].doneAt.None? && jobs[DigestKey(p)].refVersion == posts[p].threadVersion
  }

  /** Versions never go back; the same version means the same text; a new version means the
      digest is queued again. The digest that is stored stays until a new one comes. */
  ghost predicate Steady(db: Db, db': Db, p: Id)
    requires p in db.posts && p in db'.posts
  {
    && db.posts[p].threadVersion <= db'.posts[p].threadVersion && db'.posts[p].digest == db.posts[p].digest
    && (db.posts[p].threadVersion == db'.posts[p].threadVersion ==>
          ViewOf(db, p) == ViewOf(db', p) && Find(db'.jobs, DigestKey(p)) == Find(db.jobs, DigestKey(p)))
    && (db.posts[p].threadVersion < db'.posts[p].threadVersion ==> DigestOpen(db'.posts, db'.jobs, p))
  }

  ghost predicate AllSteady(db: Db, db': Db) {
    && db'.posts.Keys == db.posts.Keys
    && (forall p {:trigger Steady(db, db', p)} | p in db.posts :: Steady(db, db', p))
  }

  /** The same, where post x may be new; it starts with a digest to write. */
  ghost predicate Grows(db: Db, db': Db, x: Id) {
    && db.posts.Keys <= db'.posts.Keys <= db.posts.Keys + {x}
    && (forall p {:trigger Steady(db, db', p)} | p in db.posts :: Steady(db, db', p))
    && (x in db'.posts && x !in db.posts ==> DigestOpen(db'.posts, db'.jobs, x))
  }

  // ---- How it is kept: one post's rows change, and the threads it is part of are told ----

  predicate SamePart(posts: Posts, comments: Comments, posts': Posts, comments': Comments, q: Id)
    requires q in posts && q in posts'
  {
    Part(posts', comments', q) == Part(posts, comments, q) && posts'[q].continues == posts[q].continues
  }

  /** At most post x and its comments read differently. */
  ghost predicate Only(x: Id, posts: Posts, comments: Comments, posts': Posts, comments': Comments) {
    && posts.Keys <= posts'.Keys <= posts.Keys + {x}
    && forall q | q in posts && q != x :: SamePart(posts, comments, posts', comments', q)
  }

  predicate ToldOne(posts: Posts, jobs: Queue, posts': Posts, jobs': Queue, q: Id, told: bool)
    requires q in posts && q in posts'
  {
    && posts'[q].digest == posts[q].digest
    && if told then posts[q].threadVersion < posts'[q].threadVersion && DigestOpen(posts', jobs', q)
       else posts'[q].threadVersion == posts[q].threadVersion && Find(jobs', DigestKey(q)) == Find(jobs, DigestKey(q))
  }

  /** Exactly the threads in b have a new version and a digest to write. */
  ghost predicate Tells(posts: Posts, jobs: Queue, posts': Posts, jobs': Queue, b: set<Id>) {
    posts.Keys <= posts'.Keys && forall q | q in posts :: ToldOne(posts, jobs, posts', jobs', q, q in b)
  }

  /** The threads a post's text is read in: its own, and the one it continues. */
  function Threads(posts: Posts, x: Id): set<Id> {
    {x} + (if x in posts && posts[x].continues.Some? then {posts[x].continues.value} else {})
  }

  lemma ToldIsSteady(db: Db, db': Db, x: Id, b: set<Id>, p: Id)
    requires Only(x, db.posts, db.comments, db'.posts, db'.comments) && Tells(db.posts, db.jobs, db'.posts, db'.jobs, b)
    requires Threads(db.posts, x) <= b && Threads(db'.posts, x) <= b
    requires p in db.posts
    ensures Steady(db, db', p)
  {
    assert ToldOne(db.posts, db.jobs, db'.posts, db'.jobs, p, p in b);
    if p !in b {
      SameView(x, db.posts, db.comments, db'.posts, db'.comments, p);
    }
  }

  lemma SameUpdates(x: Id, posts: Posts, comments: Comments, posts': Posts, comments': Comments, p: Id)
    requires Only(x, posts, comments, posts', comments')
    requires p !in Threads(posts, x) && p !in Threads(posts', x)
    ensures ShownUpdates(posts', p) == ShownUpdates(posts, p) && x !in ShownUpdates(posts, p)
  {
  }

  lemma SameParts(posts: Posts, comments: Comments, posts': Posts, comments': Comments, p: Id)
    requires p in posts && p in posts' && ShownUpdates(posts', p) == ShownUpdates(posts, p)
    requires SamePart(posts, comments, posts', comments', p)
    requires forall q | q in ShownUpdates(posts, p) :: SamePart(posts, comments, posts', comments', q)
    ensures View(posts', comments', p) == View(posts, comments, p)
  {
  }

  /** A thread that post x is no part of, before or after, reads the same. */
  lemma SameView(x: Id, posts: Posts, comments: Comments, posts': Posts, comments': Comments, p: Id)
    requires Only(x, posts, comments, posts', comments') && p in posts
    requires p !in Threads(posts, x) && p !in Threads(posts', x)
    ensures View(posts', comments', p) == View(posts, comments, p)
  {
    SameUpdates(x, posts, comments, posts', comments', p);
    hide SamePart;
    SameParts(posts, comments, posts', comments', p);
  }

  // ---- threadChanged tells ----

  lemma TouchFinds(db: Db, x: Id, at: int, q: Id)
    requires x in db.posts
    ensures var jobs := Touch(db, x, at).jobs;
            if q == x then
              DigestKey(q) in jobs && jobs[DigestKey(q)].doneAt.None? &&
              jobs[DigestKey(q)].refVersion == db.posts[x].threadVersion + 1
            else Find(jobs, DigestKey(q)) == Find(db.jobs, DigestKey(q))
  {
  }

  /** One post's version moves and its digest is queued. */
  lemma OneTold(posts: Posts, jobs: Queue, posts': Posts, jobs': Queue, x: Id, p: Post)
    requires x in posts && posts' == posts[x := p] && p.digest == posts[x].digest &&
             posts[x].threadVersion < p.threadVersion
    requires DigestOpen(posts', jobs', x)
    requires forall q :: q != x ==> Find(jobs', DigestKey(q)) == Find(jobs, DigestKey(q))
    ensures Tells(posts, jobs, posts', jobs', {x})
  {
  }

  lemma TouchPosts(db: Db, x: Id, at: int)
    requires x in db.posts
    ensures Touch(db, x, at).posts == db.posts[x := db.posts[x].(threadVersion := db.posts[x].threadVersion + 1)]
  {
  }

  lemma TouchTells(db: Db, x: Id, at: int)
    requires x in db.posts
    ensures Tells(db.posts, db.jobs, Touch(db, x, at).posts, Touch(db, x, at).jobs, {x})
  {
    hide Touch, Tells, Find;
    TouchPosts(db, x, at);
    forall q | q != x ensures Find(Touch(db, x, at).jobs, DigestKey(q)) == Find(db.jobs, DigestKey(q)) {
      TouchFinds(db, x, at, q);
    }
    TouchFinds(db, x, at, x);
    OneTold(db.posts, db.jobs, Touch(db, x, at).posts, Touch(db, x, at).jobs, x,
            db.posts[x].(threadVersion := db.posts[x].threadVersion + 1));
  }

  lemma TellsTwice(a: Db, b: Db, c: Db, x: Id, y: Id)
    requires Tells(a.posts, a.jobs, b.posts, b.jobs, {x}) && Tells(b.posts, b.jobs, c.posts, c.jobs, {y})
    ensures Tells(a.posts, a.jobs, c.posts, c.jobs, {x, y})
  {
  }

  lemma ThreadChangedTells(db: Db, x: Id, at: int)
    requires ThreadChanged(db, x, at).Some?
    ensures Tells(db.posts, db.jobs, ThreadChanged(db, x, at).value.posts, ThreadChanged(db, x, at).value.jobs,
                  Threads(db.posts, x))
  {
    TouchTells(db, x, at);
    if db.posts[x].continues.Some? {
      var q := db.posts[x].continues.value;
      TouchTells(Touch(db, x, at), q, at);
      hide Touch;
      TellsTwice(db, Touch(db, x, at), Touch(Touch(db, x, at), q, at), x, q);
      assert {x} + {q} == {x, q};
    } else {
      assert Threads(db.posts, x) == {x};
    }
  }

  // ---- Steps that change what post x reads, and tell ----

  ghost predicate Changes(db: Db, db': Db, x: Id, b: set<Id>) {
    && Only(x, db.posts, db.comments, db'.posts, db'.comments)
    && Tells(db.posts, db.jobs, db'.posts, db'.jobs, b)
    && Threads(db.posts, x) <= b && Threads(db'.posts, x) <= b
    && (x in db'.posts && x !in db.posts ==> DigestOpen(db'.posts, db'.jobs, x))
  }

  lemma ChangesGrow(db: Db, db': Db, x: Id, b: set<Id>)
    requires Changes(db, db', x, b)
    ensures Grows(db, db', x)
    ensures x in db.posts ==> AllSteady(db, db')
  {
    forall p | p in db.posts ensures Steady(db, db', p) {
      ToldIsSteady(db, db', x, b, p);
    }
  }

  /** Nothing a reader sees changes, and no digest job does. */
  ghost predicate Quiet(a: Db, b: Db) {
    && a.posts.Keys == b.posts.Keys
    && (forall q | q in a.posts :: SamePart(a.posts, a.comments, b.posts, b.comments, q))
    && Tells(a.posts, a.jobs, b.posts, b.jobs, {})
  }

  lemma QuietView(a: Db, b: Db, p: Id)
    requires Quiet(a, b) && p in a.posts
    ensures ViewOf(b, p) == ViewOf(a, p)
  {
    hide Lines;
    forall q | q in a.posts
      ensures b.posts[q].continues == a.posts[q].continues && Shown(b.posts[q].status) == Shown(a.posts[q].status)
    {
      assert SamePart(a.posts, a.comments, b.posts, b.comments, q);
    }
    assert ShownUpdates(b.posts, p) == ShownUpdates(a.posts, p);
    SameParts(a.posts, a.comments, b.posts, b.comments, p);
  }

  lemma QuietSteady(a: Db, b: Db)
    requires Quiet(a, b)
    ensures AllSteady(a, b)
  {
    forall p | p in a.posts ensures Steady(a, b, p) {
      assert ToldOne(a.posts, a.jobs, b.posts, b.jobs, p, false);
      QuietView(a, b, p);
    }
  }

  // ---- Composing them ----

  lemma SteadyThen(a: Db, b: Db, c: Db, p: Id)
    requires p in a.posts && p in b.posts && p in c.posts && Steady(a, b, p) && Steady(b, c, p)
    ensures Steady(a, c, p)
  {
  }

  /** One steady step after another is steady. */
  lemma AllSteadyThen(a: Db, b: Db, c: Db)
    requires AllSteady(a, b) && AllSteady(b, c)
    ensures AllSteady(a, c)
  {
    hide Steady;
    forall p | p in a.posts ensures Steady(a, c, p) {
      assert Steady(a, b, p) && Steady(b, c, p);
      SteadyThen(a, b, c, p);
    }
  }

  lemma TellsThen(a: Db, b: Db, c: Db, s: set<Id>, u: set<Id>)
    requires Tells(a.posts, a.jobs, b.posts, b.jobs, s) && Tells(b.posts, b.jobs, c.posts, c.jobs, u)
    ensures Tells(a.posts, a.jobs, c.posts, c.jobs, s + u)
  {
  }

  lemma OnlyThen(x: Id, a: Db, b: Db, c: Db)
    requires Only(x, a.posts, a.comments, b.posts, b.comments) && b.posts.Keys == c.posts.Keys
    requires forall q | q in b.posts :: SamePart(b.posts, b.comments, c.posts, c.comments, q)
    ensures Only(x, a.posts, a.comments, c.posts, c.comments) && Threads(c.posts, x) == Threads(b.posts, x)
  {
  }

  /** A change followed by a quiet step. */
  lemma ThenQuiet(a: Db, b: Db, c: Db, x: Id, s: set<Id>)
    requires Changes(a, b, x, s) && Quiet(b, c)
    ensures Changes(a, c, x, s)
  {
    OnlyThen(x, a, b, c);
    TellsThen(a, b, c, s, {});
    assert s + {} == s;
    if x in c.posts && x !in a.posts { assert ToldOne(b.posts, b.jobs, c.posts, c.jobs, x, false); }
  }

  lemma SameContentParts(a: Db, b: Db)
    requires SameContent(a, b)
    ensures a.posts.Keys == b.posts.Keys && forall q | q in a.posts :: SamePart(a.posts, a.comments, b.posts, b.comments, q)
  {
  }

  /** Something about x was put in place, quietly so far, and then its threads are told. */
  lemma ThenTold(db: Db, put: Db, x: Id, at: int)
    requires Only(x, db.posts, db.comments, put.posts, put.comments) &&
             Tells(db.posts, db.jobs, put.posts, put.jobs, {})
    requires x in db.posts && Threads(db.posts, x) <= Threads(put.posts, x) && ThreadChanged(put, x, at).Some?
    ensures Changes(db, ThreadChanged(put, x, at).value, x, Threads(put.posts, x))
  {
    ThreadChangedTells(put, x, at);
    ThreadChangedSame(put, x, at);
    hide ThreadChanged, SameContent, Only, Tells;
    var end := ThreadChanged(put, x, at).value;
    SameContentParts(put, end);
    OnlyThen(x, db, put, end);
    TellsThen(db, put, end, {}, Threads(put.posts, x));
    assert {} + Threads(put.posts, x) == Threads(put.posts, x);
  }
}
