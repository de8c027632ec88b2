/**
 What a change of a thread does to the notes written from it: the active ones on other posts are
 marked stale and queued for the version they then have, and no other note is touched; command by
 command, a note that is not queued reads as before (internal/cmd/jobs.go, links.go).
 */
module Citing {
  import opened Types
  import opened Jobs
  import opened Tables
  import opened Content
  import opened Versions
  import opened Telling
  import opened Imports
  import opened Index
  import opened IndexFree
  import opened GroupLog
  import C = Commands
  import Digests

  // ---- One source each ----

  ghost predicate OneSource(db: Db) {
    DistinctNotes(db.sources) && forall s <- db.sources :: s.note in db.notes
  }

  /** With one source each, the sum has one term. */
  lemma {:induction false} OneTerm(posts: Posts, sources: seq<NoteSource>, s: NoteSource)
    requires DistinctNotes(sources)
    ensures s in sources ==> SumSources(posts, sources, s.note) == if s.post in posts then posts[s.post].threadVersion else 0
    ensures (forall t <- sources :: t.note != s.note) ==> SumSources(posts, sources, s.note) == 0
  {
    if sources != [] {
      OneTerm(posts, sources[1..], s);
      if sources[0].note == s.note && s in sources {
        assert s == sources[0];
        forall t <- sources[1..] ensures t.note != s.note {}
        OneTerm(posts, sources[1..], s);
      }
    }
  }

  ghost predicate DistinctNotes(sources: seq<NoteSource>) {
    forall i, j | 0 <= i < j < |sources| :: sources[i].note != sources[j].note
  }

  // ---- threadChanged, note by note ----

  function NoteKey(n: Id): JobKey { JobKey(Note, n) }

  /** Note n is active, sits on another post than q, and is written from q. */
  predicate Cites(db: Db, n: Id, q: Id) {
    n in db.notes && db.notes[n].active && db.notes[n].host != q && NoteSource(n, db.group, q) in db.sources
  }

  /** A note that is told is stale and queued for the version it now has; one that is not is as it was. */
  ghost predicate NoteTold(db: Db, db': Db, n: Id, told: bool)
    requires n in db.notes
  {
    n in db'.notes &&
    if told then
      && db'.notes[n] == db.notes[n].(stale := true)
      && NoteKey(n) in db'.jobs && db'.jobs[NoteKey(n)].doneAt.None?
      && db'.jobs[NoteKey(n)].refVersion == NoteVersion(db', n)
    else db'.notes[n] == db.notes[n] && Find(db'.jobs, NoteKey(n)) == Find(db.jobs, NoteKey(n))
  }

  lemma TouchMarks(db: Db, p: Id, at: int, n: Id)
    requires p in db.posts && n in db.notes
    ensures n in C.Touch(db, p, at).notes
    ensures C.Touch(db, p, at).notes[n] == if Cites(db, n, p) then db.notes[n].(stale := true) else db.notes[n]
  {
    hide C.RequeueDigest, C.RequeueNotes;
  }

  lemma TouchQueues(db: Db, p: Id, at: int, n: Id)
    requires p in db.posts && n in db.notes
    ensures var r := C.Touch(db, p, at);
            Find(r.jobs, NoteKey(n)) ==
            if Cites(db, n, p) then Some(Scheduled(Find(db.jobs, NoteKey(n)), NoteVersion(r, n), at + QUIET_PERIOD, at))
            else Find(db.jobs, NoteKey(n))
  {
    hide NoteVersion, C.RequeueDigest, C.MarkStale, Scheduled;
    var v := db.posts[p].threadVersion + 1;
    var bumped := db.(posts := db.posts[p := db.posts[p].(threadVersion := v)], jobs := C.RequeueDigest(db, p, v, at),
                      notes := C.MarkStale(db.notes, C.CitingNotes(db, p)));
    assert n in C.CitingNotes(db, p) <==> Cites(db, n, p);
    JobsDoNotCount(bumped, C.RequeueNotes(bumped, C.CitingNotes(db, p), at), n);
    DigestsOnly(db, p, v, at, n);
    hide C.CitingNotes, Cites;
  }

  lemma TouchNotes(db: Db, p: Id, at: int, n: Id)
    requires p in db.posts && n in db.notes
    ensures NoteTold(db, C.Touch(db, p, at), n, Cites(db, n, p))
  {
    hide NoteVersion, C.Touch, Cites;
    TouchMarks(db, p, at, n);
    TouchQueues(db, p, at, n);
  }

  lemma JobsDoNotCount(db: Db, jobs: Queue, n: Id)
    ensures NoteVersion(db.(jobs := jobs), n) == NoteVersion(db, n)
  {
  }

  lemma DigestsOnly(db: Db, p: Id, v: nat, at: int, n: Id)
    requires p in db.posts
    ensures Find(C.RequeueDigest(db, p, v, at), NoteKey(n)) == Find(db.jobs, NoteKey(n))
  {
  }

  /** What a note's version becomes does not depend on the marks and jobs. */
  lemma TouchVersions(db: Db, p: Id, at: int, n: Id)
    requires p in db.posts && n in db.notes
    ensures var r := C.Touch(db, p, at);
            r.sources == db.sources && r.group == db.group && r.notes.Keys == db.notes.Keys &&
            r.posts == db.posts[p := db.posts[p].(threadVersion := db.posts[p].threadVersion + 1)] &&
            NoteVersion(r, n) == SumSources(r.posts, r.sources, n) + db.notes[n].ext
  {
    hide C.RequeueNotes, C.RequeueDigest, SumSources;
  }

  lemma CitesAfter(db: Db, p: Id, at: int, n: Id, q: Id)
    requires p in db.posts && n in db.notes && NoteTold(db, C.Touch(db, p, at), n, Cites(db, n, p))
    ensures Cites(C.Touch(db, p, at), n, q) == Cites(db, n, q)
  {
    TouchVersions(db, p, at, n);
    hide C.Touch;
  }

  /** A note written from one of two threads only is not moved by the other. */
  lemma OtherTouch(db: Db, q: Id, at: int, n: Id, p: Id)
    requires OneSource(db) && q in db.posts && n in db.notes && p != q && NoteSource(n, db.group, p) in db.sources
    requires !Cites(db, n, q)
    ensures NoteVersion(C.Touch(db, q, at), n) == NoteVersion(db, n)
  {
    TouchVersions(db, q, at, n);
    OneTerm(db.posts, db.sources, NoteSource(n, db.group, p));
    OneTerm(C.Touch(db, q, at).posts, db.sources, NoteSource(n, db.group, p));
    hide C.Touch;
  }

  lemma TwiceTold(db: Db, p: Id, q: Id, at: int, n: Id)
    requires OneSource(db) && p in db.posts && q in db.posts && n in db.notes
    ensures NoteTold(db, C.Touch(C.Touch(db, p, at), q, at), n, Cites(db, n, p) || Cites(db, n, q))
  {
    var mid := C.Touch(db, p, at);
    TouchVersions(db, p, at, n);
    TouchNotes(db, p, at, n);
    TouchNotes(mid, q, at, n);
    CitesAfter(db, p, at, n, q);
    if Cites(db, n, p) && !Cites(db, n, q) { OtherTouch(mid, q, at, n, p); }
    hide C.Touch, NoteVersion;
  }

  /** Main result. A change of a thread reaches exactly the active notes that sit on another post and
      are written from it, or from the thread it continues; each of them is stale and queued for the
      version it now has, and all other notes and their jobs are as they were. */
  lemma ThreadChangedTellsNotes(db: Db, p: Id, at: int)
    requires OneSource(db) && C.ThreadChanged(db, p, at).Some?
    ensures forall n <- db.notes ::
              NoteTold(db, C.ThreadChanged(db, p, at).value, n, exists q <- Threads(db.posts, p) :: Cites(db, n, q))
  {
    forall n | n in db.notes
      ensures NoteTold(db, C.ThreadChanged(db, p, at).value, n, exists q <- Threads(db.posts, p) :: Cites(db, n, q))
    {
      hide C.Touch, Cites, NoteTold;
      match db.posts[p].continues
      case None =>
        assert Threads(db.posts, p) == {p};
        TouchNotes(db, p, at, n);
      case Some(q) =>
        assert Threads(db.posts, p) == {p, q};
        TwiceTold(db, p, q, at, n);
    }
  }

  // ---- What a command leaves of a note ----

  /** The notes are untouched, apart from marks. */
  ghost predicate SameNotes(a: Db, b: Db) {
    b.group == a.group && b.sources == a.sources && b.notes.Keys == a.notes.Keys &&
    forall n <- a.notes :: b.notes[n].ext == a.notes[n].ext
  }

  /** One source each, and those in this group are there. */
  ghost predicate Sourced(db: Db) {
    OneSource(db) && forall s <- db.sources :: s.group == db.group ==> s.post in db.posts
  }

  /** An active note written from another post of this group. */
  predicate Live(db: Db, s: NoteSource) {
    s in db.sources && s.group == db.group && s.post in db.posts && s.note in db.notes && db.notes[s.note].active &&
    db.notes[s.note].host != s.post
  }

  /** The note waits to be written for the version it now has. */
  predicate Waits(db: Db, s: NoteSource)
    requires Live(db, s)
  {
    db.notes[s.note].stale && NoteKey(s.note) in db.jobs && db.jobs[NoteKey(s.note)].doneAt.None? &&
    db.jobs[NoteKey(s.note)].refVersion == db.posts[s.post].threadVersion + db.notes[s.note].ext
  }

  /** The note, its source's version and its job are as they were. */
  predicate Stands(a: Db, b: Db, s: NoteSource)
    requires Live(b, s)
  {
    Live(a, s) && b.notes[s.note] == a.notes[s.note] &&
    b.posts[s.post].threadVersion == a.posts[s.post].threadVersion &&
    Find(b.jobs, NoteKey(s.note)) == Find(a.jobs, NoteKey(s.note))
  }

  /** Each live note is queued, or is as it was. */
  ghost predicate NotesGoOn(a: Db, b: Db) {
    Sourced(a) ==> Sourced(b) && forall s | Live(b, s) :: Waits(b, s) || Stands(a, b, s)
  }

  lemma GoOnThen(a: Db, b: Db, c: Db)
    requires NotesGoOn(a, b) && NotesGoOn(b, c)
    ensures NotesGoOn(a, c)
  {
  }

  /** No thread is told: what a note shows and what its version is made of stay. */
  ghost predicate NotesQuiet(a: Db, b: Db) {
    b.group == a.group && b.sources == a.sources && b.notes == a.notes && b.links == a.links && a.posts.Keys <= b.posts.Keys &&
    (forall q <- a.posts :: b.posts[q].threadVersion == a.posts[q].threadVersion) && SameNoteJobs(a.jobs, b.jobs)
  }

  ghost predicate SameNoteJobs(jobs: Queue, jobs': Queue) {
    forall n :: Find(jobs', NoteKey(n)) == Find(jobs, NoteKey(n))
  }

  /** The notes go on, and no link is touched. */
  ghost predicate Follow(a: Db, b: Db) { SameNotes(a, b) && NotesGoOn(a, b) && b.links == a.links }

  lemma QuietFollows(a: Db, b: Db)
    requires NotesQuiet(a, b)
    ensures Follow(a, b)
  {
  }

  lemma QuietThen(a: Db, b: Db, c: Db)
    requires NotesQuiet(a, b) && NotesQuiet(b, c)
    ensures NotesQuiet(a, c)
  {
  }

  lemma QuietSelf(a: Db)
    ensures NotesQuiet(a, a) && Follow(a, a)
  {
  }

  lemma QuietAround(a: Db, b: Db, c: Db, d: Db)
    requires NotesQuiet(a, b) && Follow(b, c) && NotesQuiet(c, d)
    ensures Follow(a, d)
  {
    QuietFollows(a, b);
    QuietFollows(c, d);
    GoOnThen(a, b, c);
    GoOnThen(a, c, d);
    hide NotesGoOn;
  }

  /** A post's row put or replaced, apart from its thread version. */
  lemma PostPutQuiet(a: Db, b: Db, x: Id, p: Post)
    requires b.posts == a.posts[x := p] && (x in a.posts ==> p.threadVersion == a.posts[x].threadVersion)
    requires b.group == a.group && b.sources == a.sources && b.notes == a.notes && b.links == a.links &&
             SameNoteJobs(a.jobs, b.jobs)
    ensures NotesQuiet(a, b)
  {
  }

  lemma TablesQuiet(a: Db, b: Db)
    requires b.posts == a.posts && b.group == a.group && b.sources == a.sources && b.notes == a.notes &&
             b.links == a.links &&
             SameNoteJobs(a.jobs, b.jobs)
    ensures NotesQuiet(a, b)
  {
  }

  lemma SameJobs(jobs: Queue)
    ensures SameNoteJobs(jobs, jobs)
  {
  }

  lemma OtherKey(jobs: Queue, k: JobKey, version: nat, runAfter: int, at: int)
    requires k.kind != Note
    ensures SameNoteJobs(jobs, Schedule(jobs, k, version, runAfter, at))
  {
  }

  lemma OtherFinish(jobs: Queue, k: JobKey, worker: string, version: nat, current: nat, at: int)
    requires k.kind != Note
    ensures SameNoteJobs(jobs, Finish(jobs, k, worker, version, current, at))
  {
  }

  lemma SameNoteJobsThen(a: Queue, b: Queue, c: Queue)
    requires SameNoteJobs(a, b) && SameNoteJobs(b, c)
    ensures SameNoteJobs(a, c)
  {
  }

  lemma ThreadChangedSameNotes(db: Db, p: Id, at: int)
    requires C.ThreadChanged(db, p, at).Some?
    ensures SameNotes(db, C.ThreadChanged(db, p, at).value) && C.ThreadChanged(db, p, at).value.links == db.links
  {
    TouchSameNotes(db, p, at);
    if db.posts[p].continues.Some? {
      TouchSameNotes(C.Touch(db, p, at), db.posts[p].continues.value, at);
    }
    hide C.Touch;
  }

  lemma TouchSameNotes(db: Db, p: Id, at: int)
    requires p in db.posts
    ensures SameNotes(db, C.Touch(db, p, at)) && C.Touch(db, p, at).links == db.links
  {
    hide C.RequeueNotes, C.RequeueDigest, C.CitingNotes;
  }

  lemma LiveAfterChange(a: Db, b: Db, p: Id, s: NoteSource)
    requires Sourced(a) && Live(b, s) && SameNotes(a, b) && a.posts.Keys == b.posts.Keys
    requires Tells(a.posts, a.jobs, b.posts, b.jobs, Threads(a.posts, p))
    requires NoteTold(a, b, s.note, exists q <- Threads(a.posts, p) :: Cites(a, s.note, q))
    ensures Waits(b, s) || Stands(a, b, s)
  {
    OneTerm(b.posts, b.sources, s);
    if s.post in Threads(a.posts, p) {
      assert Cites(a, s.note, s.post);
    } else {
      assert ToldOne(a.posts, a.jobs, b.posts, b.jobs, s.post, false);
      forall q | q in Threads(a.posts, p) ensures !Cites(a, s.note, q) {
        if Cites(a, s.note, q) { OneSourceOnly(a, s, NoteSource(s.note, a.group, q)); }
      }
    }
  }

  lemma OneSourceOnly(db: Db, s: NoteSource, t: NoteSource)
    requires OneSource(db) && s in db.sources && t in db.sources && s.note == t.note
    ensures s == t
  {
    var i :| 0 <= i < |db.sources| && db.sources[i] == s;
    var j :| 0 <= j < |db.sources| && db.sources[j] == t;
  }

  lemma SourcedStays(a: Db, b: Db)
    requires Sourced(a) && SameNotes(a, b) && a.posts.Keys <= b.posts.Keys
    ensures Sourced(b)
  {
  }

  lemma ChangedKeys(db: Db, p: Id, at: int)
    requires C.ThreadChanged(db, p, at).Some?
    ensures C.ThreadChanged(db, p, at).value.posts.Keys == db.posts.Keys
  {
    ThreadChangedSame(db, p, at);
    hide C.ThreadChanged;
    SameContentParts(db, C.ThreadChanged(db, p, at).value);
  }

  lemma ThreadChangedGoesOn(db: Db, p: Id, at: int)
    requires C.ThreadChanged(db, p, at).Some? && Sourced(db) && SameNotes(db, C.ThreadChanged(db, p, at).value)
    ensures NotesGoOn(db, C.ThreadChanged(db, p, at).value)
  {
    hide C.ThreadChanged, Tells, Threads, Waits, Stands, NoteTold, SameNotes, Live, OneSource;
    var r := C.ThreadChanged(db, p, at).value;
    ChangedKeys(db, p, at);
    SourcedStays(db, r);
    ThreadChangedTells(db, p, at);
    ThreadChangedTellsNotes(db, p, at);
    hide Sourced;
    forall s | Live(r, s) ensures Waits(r, s) || Stands(db, r, s) {
      LiveIsNote(r, s);
      SameKeys(db, r);
      LiveAfterChange(db, r, p, s);
    }
  }

  lemma LiveIsNote(db: Db, s: NoteSource)
    requires Live(db, s)
    ensures s.note in db.notes
  {
  }

  lemma SameKeys(a: Db, b: Db)
    requires SameNotes(a, b)
    ensures a.notes.Keys == b.notes.Keys
  {
  }

  lemma ThreadChangedFollows(db: Db, p: Id, at: int)
    requires C.ThreadChanged(db, p, at).Some?
    ensures Follow(db, C.ThreadChanged(db, p, at).value)
  {
    ThreadChangedSameNotes(db, p, at);
    hide C.ThreadChanged, SameNotes, Sourced, Live;
    if Sourced(db) { ThreadChangedGoesOn(db, p, at); }
  }

  /** A thread told after some other table changed, and before others do. */
  lemma ToldFollows(db: Db, put: Db, p: Id, at: int, end: Db)
    requires NotesQuiet(db, put) && C.ThreadChanged(put, p, at).Some? &&
             NotesQuiet(C.ThreadChanged(put, p, at).value, end)
    ensures Follow(db, end)
  {
    hide C.ThreadChanged, Follow, NotesQuiet;
    ThreadChangedFollows(put, p, at);
    QuietAround(db, put, C.ThreadChanged(put, p, at).value, end);
  }

  // ---- Command by command ----

  lemma MarkedQuiet(db: Db, id: Id, at: int)
    requires id in db.posts
    ensures NotesQuiet(db, C.Marked(db, id, at))
  {
    OtherKey(db.jobs, JobKey(Check, id), db.posts[id].version + 1, at, at);
    PostPutQuiet(db, C.Marked(db, id, at), id, db.posts[id].(version := db.posts[id].version + 1));
  }

  lemma RetitledQuiet(db: Db, id: Id, title: string, body: string, at: int)
    requires id in db.posts && C.SaveRevision(db, Item(APost, id), at).Some?
    ensures var saved := C.SaveRevision(db, Item(APost, id), at).value;
            id in saved.posts && NotesQuiet(db, C.Retitled(saved, id, title, body))
  {
    SavedIs(db, Item(APost, id), at);
    SameJobs(db.jobs);
    hide C.SaveRevision, NotesQuiet, SameNoteJobs;
    PostPutQuiet(db, C.Retitled(C.SaveRevision(db, Item(APost, id), at).value, id, title, body), id,
                 db.posts[id].(title := title, body := body));
  }

  lemma EditPostNotes(db: Db, id: Id, title: string, body: string, at: int)
    requires C.EditPost(db, id, title, body, at).Some?
    ensures Follow(db, C.EditPost(db, id, title, body, at).value)
  {
    hide C.ThreadChanged, C.SaveRevision, Follow, NotesQuiet, Schedule, SameNoteJobs;
    var saved := C.SaveRevision(db, Item(APost, id), at).value;
    var put, end := C.Retitled(saved, id, title, body), C.EditPost(db, id, title, body, at).value;
    var told := C.PostEdited(put, id, at).value;
    assert end == told || end == told.(fts := told.fts[id := id]);
    RetitledQuiet(db, id, title, body, at);
    MarkedQuiet(put, id, at);
    QuietThen(db, put, C.Marked(put, id, at));
    SameJobs(told.jobs);
    TablesQuiet(told, end);
    hide C.EditPost, C.Marked;
    ToldFollows(db, C.Marked(put, id, at), id, at, end);
  }

  /** A post's counter moved, and perhaps jobs that are not notes'. */
  lemma CountQuiet(a: Db, b: Db, x: Id, n: int)
    requires x in a.posts && b.posts == a.posts[x := a.posts[x].(commentCount := n)]
    requires b.group == a.group && b.sources == a.sources && b.notes == a.notes && b.links == a.links &&
             SameNoteJobs(a.jobs, b.jobs)
    ensures NotesQuiet(a, b)
  {
    hide NotesQuiet;
    PostPutQuiet(a, b, x, a.posts[x].(commentCount := n));
  }

  lemma CreateCommentNotes(db: Db, id: Id, post: Id, parent: Id, user: Id, body: string, image: Option<Id>, at: int)
    requires C.CreateComment(db, id, post, parent, user, body, image, at).Some?
    ensures Follow(db, C.CreateComment(db, id, post, parent, user, body, image, at).value)
  {
    hide C.ThreadChanged, C.ReplyParent, C.FreshImages, C.WithImages, C.IsMember, Schedule, Follow, NotesQuiet,
      SameNoteJobs;
    var images := if image.Some? then [image.value] else [];
    var c := Comment(post, C.ReplyParent(db, post, parent).value, user, body, Visible, None, 1, false, None);
    var put := C.AddCount(db.(comments := db.comments[id := c], side := C.WithImages(db.side, post, Some(id), images)), post, 1);
    var told, end := C.ThreadChanged(put, post, at).value, C.CreateComment(db, id, post, parent, user, body, image, at).value;
    assert end == told.(jobs := Schedule(told.jobs, JobKey(CheckComment, id), 1, at, at), fts := told.fts[id := post]);
    hide C.CreateComment;
    SameJobs(db.jobs);
    OtherKey(told.jobs, JobKey(CheckComment, id), 1, at, at);
    CountQuiet(db, put, post, db.posts[post].commentCount + 1);
    TablesQuiet(told, end);
    ToldFollows(db, put, post, at, end);
  }

  lemma RewrittenQuiet(db: Db, id: Id, body: string, at: int)
    requires id in db.comments
    ensures NotesQuiet(db, C.Rewritten(db, id, body, at))
  {
    OtherKey(db.jobs, JobKey(CheckComment, id), db.comments[id].version + 1, at, at);
    TablesQuiet(db, C.Rewritten(db, id, body, at));
  }

  lemma EditCommentNotes(db: Db, id: Id, body: string, at: int)
    requires C.EditComment(db, id, body, at).Some?
    ensures Follow(db, C.EditComment(db, id, body, at).value)
  {
    hide C.ThreadChanged, C.SaveRevision, Follow, NotesQuiet, SameNoteJobs, C.Rewritten;
    EditCommentIs(db, id, body, at);
    hide C.EditComment;
    SavedIs(db, Item(AComment, id), at);
    var saved := C.SaveRevision(db, Item(AComment, id), at).value;
    var put := C.Rewritten(saved, id, body, at);
    var told := C.ThreadChanged(put, db.comments[id].post, at).value;
    SameJobs(db.jobs);
    TablesQuiet(db, saved);
    RewrittenQuiet(saved, id, body, at);
    QuietThen(db, saved, put);
    SameJobs(told.jobs);
    TablesQuiet(told, C.EditComment(db, id, body, at).value);
    ToldFollows(db, put, db.comments[id].post, at, C.EditComment(db, id, body, at).value);
  }

  lemma StatusQuiet(db: Db, item: Item, to: Status, purge: Option<int>)
    requires C.Exists(db, item)
    ensures NotesQuiet(db, C.SetStatus(db, item, to, purge))
    ensures C.ThreadOf(db, item) in db.posts ==> NotesQuiet(db, Restatus(db, item, to, purge))
  {
    SameJobs(db.jobs);
    hide SameNoteJobs, NotesQuiet;
    if item.kind == APost {
      var p := db.posts[item.id].(status := to, purgeAfter := purge);
      PostPutQuiet(db, C.SetStatus(db, item, to, purge), item.id, p);
      PostPutQuiet(db, Restatus(db, item, to, purge), item.id, p);
    } else {
      TablesQuiet(db, C.SetStatus(db, item, to, purge));
      if C.ThreadOf(db, item) in db.posts {
        var put := Restatus(db, item, to, purge);
        CountQuiet(db, put, C.ThreadOf(db, item), put.posts[C.ThreadOf(db, item)].commentCount);
      }
    }
  }

  lemma CountedQuiet(db: Db, post: Id, delta: int)
    ensures NotesQuiet(db, Counted(Some(db), post, delta).value)
  {
    SameJobs(db.jobs);
    if delta != 0 && post in db.posts {
      CountQuiet(db, C.AddCount(db, post, delta), post, db.posts[post].commentCount + delta);
    }
  }

  lemma AfterwardsNotes(db: Db, item: Item, to: Status, purge: Option<int>, at: int)
    requires C.Exists(db, item) && C.ThreadOf(db, item) in db.posts && Afterwards(db, item, to, purge, at).Some?
    ensures Follow(db, Afterwards(db, item, to, purge, at).value)
  {
    hide C.ThreadChanged, Follow, NotesQuiet, SameNoteJobs, Counted, C.SetStatus;
    var post := C.ThreadOf(db, item);
    var set1 := C.SetStatus(db, item, to, purge);
    var put := set1.(fts := if Shown(to) then db.fts[item.id := post] else db.fts - {item.id});
    var delta := if item.kind == APost then 0 else One(Shown(to)) - One(Shown(C.StatusOf(db, item)));
    StatusQuiet(db, item, to, purge);
    SameJobs(set1.jobs);
    TablesQuiet(set1, put);
    QuietThen(db, set1, put);
    assert Afterwards(db, item, to, purge, at) == Counted(C.ThreadChanged(put, post, at), post, delta);
    hide Afterwards;
    CountedSome(C.ThreadChanged(put, post, at), post, delta);
    CountedQuiet(C.ThreadChanged(put, post, at).value, post, delta);
    ToldFollows(db, put, post, at, Afterwards(db, item, to, purge, at).value);
  }

  lemma CountedSome(changed: Option<Db>, post: Id, delta: int)
    requires Counted(changed, post, delta).Some?
    ensures changed.Some? && changed == Some(changed.value)
  {
  }

  lemma SoftDeleteNotes(db: Db, item: Item, byMod: bool, at: int)
    requires C.Exists(db, item) && C.ThreadOf(db, item) in db.posts && C.SoftDelete(db, item, byMod, at).Some?
    ensures Follow(db, C.SoftDelete(db, item, byMod, at).value)
  {
    if Gone(C.StatusOf(db, item)) {
      QuietSelf(db);
    } else {
      hide C.SoftDelete, Afterwards, Follow;
      SoftDeleteIs(db, item, byMod, at);
      AfterwardsNotes(db, item, if byMod then Removed else Deleted,
                      Some(at + if byMod then MOD_REMOVE_KEEP else AUTHOR_DELETE_KEEP), at);
    }
  }

  lemma RestoreNotes(db: Db, item: Item, at: int)
    requires C.Exists(db, item) && C.ThreadOf(db, item) in db.posts && C.Restore(db, item, at).Some?
    ensures Follow(db, C.Restore(db, item, at).value)
  {
    hide C.ThreadChanged, Follow;
    if C.StatusOf(db, item) == Visible {
      QuietSelf(db);
    } else {
      assert C.Restore(db, item, at) == Afterwards(db, item, Visible, None, at);
      hide C.Restore, Afterwards;
      AfterwardsNotes(db, item, Visible, None, at);
    }
  }

  lemma ChangeStatusNotes(db: Db, item: Item, to: Status, at: int)
    requires C.Exists(db, item) && C.ThreadOf(db, item) in db.posts && C.ChangeStatus(db, item, to, at).Some?
    ensures Follow(db, C.ChangeStatus(db, item, to, at).value)
  {
    if C.StatusOf(db, item) == to {
      QuietSelf(db);
    } else {
      hide C.ChangeStatus, C.ThreadChanged, Follow, Restatus, NotesQuiet;
      ChangeStatusIs(db, item, to, at);
      StatusQuiet(db, item, to, C.PurgeOf(db, item));
      QuietSelf(C.ChangeStatus(db, item, to, at).value);
      ToldFollows(db, Restatus(db, item, to, C.PurgeOf(db, item)), C.ThreadOf(db, item), at,
                  C.ChangeStatus(db, item, to, at).value);
    }
  }

  lemma ApplyVerdictNotes(db: Db, item: Item, verdict: C.Verdict, at: int)
    requires C.Exists(db, item) ==> C.ThreadOf(db, item) in db.posts
    requires C.ApplyVerdict(db, item, verdict, at).Some?
    ensures Follow(db, C.ApplyVerdict(db, item, verdict, at).value)
  {
    hide C.ChangeStatus, Follow;
    QuietSelf(db);
    if C.Exists(db, item) && verdict != C.Fine && !C.Cleared(db, item) && Shown(C.StatusOf(db, item)) {
      var to := if verdict == C.Violation then AutoHidden else Flagged;
      if C.StatusOf(db, item) != to { ChangeStatusNotes(db, item, to, at); }
    }
  }

  /** A status changed between two things that no note reads. */
  lemma StatusAround(db: Db, put: Db, item: Item, to: Status, at: int, end: Db)
    requires C.Exists(put, item) && C.ThreadOf(put, item) in put.posts && C.ChangeStatus(put, item, to, at).Some?
    requires NotesQuiet(db, put) && NotesQuiet(C.ChangeStatus(put, item, to, at).value, end)
    ensures Follow(db, end)
  {
    hide C.ChangeStatus, Follow, NotesQuiet;
    ChangeStatusNotes(put, item, to, at);
    QuietAround(db, put, C.ChangeStatus(put, item, to, at).value, end);
  }

  lemma ClearedQuiet(db: Db, item: Item)
    requires C.Exists(db, item)
    ensures NotesQuiet(db, C.SetCleared(db, item)) && C.Exists(C.SetCleared(db, item), item)
  {
    SameJobs(db.jobs);
    hide NotesQuiet, SameNoteJobs;
    if item.kind == APost {
      PostPutQuiet(db, C.SetCleared(db, item), item.id, db.posts[item.id].(aiCleared := true));
    } else {
      TablesQuiet(db, C.SetCleared(db, item));
    }
  }

  lemma ApproveNotes(db: Db, item: Item, at: int)
    requires CommentsHavePosts(db.posts, db.comments) && C.Approve(db, item, at).Some?
    ensures Follow(db, C.Approve(db, item, at).value)
  {
    hide C.ChangeStatus, Follow, NotesQuiet, SameNoteJobs, C.SetCleared, Schedule, C.VersionOf;
    var changed := C.ChangeStatus(db, item, Visible, at).value;
    var cleared, end := C.SetCleared(changed, item), C.Approve(db, item, at).value;
    ClearedQuiet(changed, item);
    assert end == cleared ||
           end == cleared.(jobs := Schedule(cleared.jobs, C.CheckKey(item), C.VersionOf(cleared, item), at, at));
    hide C.Approve;
    QuietSelf(db);
    SameJobs(cleared.jobs);
    OtherKey(cleared.jobs, C.CheckKey(item), C.VersionOf(cleared, item), at, at);
    TablesQuiet(cleared, end);
    QuietThen(changed, cleared, end);
    StatusAround(db, db, item, Visible, at, end);
  }

  lemma ReportNotes(db: Db, item: Item, user: Id, at: int)
    requires CommentsHavePosts(db.posts, db.comments) && C.Report(db, item, user, at).Some?
    ensures Follow(db, C.Report(db, item, user, at).value)
  {
    hide C.ChangeStatus, C.IsMember, Follow, NotesQuiet, SameNoteJobs, Schedule, C.VersionOf;
    var reported := db.(side := db.side.(reports := db.side.reports + {(item, user)}));
    var flags := C.StatusOf(db, item) == Visible && !C.Cleared(db, item);
    var flagged := if flags then C.ChangeStatus(reported, item, Flagged, at).value else reported;
    var end := C.Report(db, item, user, at).value;
    assert end == flagged.(jobs := Schedule(flagged.jobs, C.CheckKey(item), C.VersionOf(db, item), at, at));
    SameJobs(db.jobs);
    TablesQuiet(db, reported);
    OtherKey(flagged.jobs, C.CheckKey(item), C.VersionOf(db, item), at, at);
    TablesQuiet(flagged, end);
    if flags {
      StatusAround(db, reported, item, Flagged, at, end);
    } else {
      QuietThen(db, reported, end);
      QuietFollows(db, end);
    }
  }

  lemma VoteNotes(db: Db, item: Item, user: Id, keep: bool, at: int)
    requires CommentsHavePosts(db.posts, db.comments) && C.Vote(db, item, user, keep, at).Some?
    ensures Follow(db, C.Vote(db, item, user, keep, at).value)
  {
    hide C.ChangeStatus, C.CanVote, C.Ballots, Follow, NotesQuiet, SameNoteJobs, C.SetCleared;
    var voted := db.(side := db.side.(flagVotes := db.side.flagVotes[(item, user) := keep]));
    var keeps, hides := |C.Ballots(voted.side, item, true)|, |C.Ballots(voted.side, item, false)|;
    var end := C.Vote(db, item, user, keep, at).value;
    SameJobs(db.jobs);
    TablesQuiet(db, voted);
    if hides >= db.voteThreshold && hides > keeps {
      QuietSelf(end);
      StatusAround(db, voted, item, AutoHidden, at, end);
    } else if keeps >= db.voteThreshold {
      ClearedQuiet(C.ChangeStatus(voted, item, Visible, at).value, item);
      StatusAround(db, voted, item, Visible, at, end);
    } else {
      QuietFollows(db, voted);
    }
  }

  lemma SetCommentCheckNotes(db: Db, id: Id, worker: string, version: nat, verdict: C.Verdict, at: int)
    requires CommentsHavePosts(db.posts, db.comments) && C.SetCommentCheck(db, id, worker, version, verdict, at).Some?
    ensures Follow(db, C.SetCommentCheck(db, id, worker, version, verdict, at).value)
  {
    hide C.ApplyVerdict, Follow, NotesQuiet, SameNoteJobs, Finish, Accepts;
    var k := JobKey(CheckComment, id);
    var finished := db.(jobs := Finish(db.jobs, k, worker, version, db.comments[id].version, at));
    OtherFinish(db.jobs, k, worker, version, db.comments[id].version, at);
    TablesQuiet(db, finished);
    QuietFollows(db, finished);
    if Accepts(db.jobs, k, worker, version, db.comments[id].version) {
      var judged := C.ApplyVerdict(finished, Item(AComment, id), verdict, at).value;
      ApplyVerdictNotes(finished, Item(AComment, id), verdict, at);
      QuietSelf(judged);
      QuietAround(db, finished, judged, judged);
    }
  }

  lemma ModerationNotes(db: Db, c: Cmd)
    requires CommentsHavePosts(db.posts, db.comments) && Step(db, c).Some?
    requires c.Approve? || c.Report? || c.Vote? || c.SetCommentCheck?
    ensures Follow(db, Step(db, c).value)
  {
    hide C.Approve, C.Report, C.Vote, C.SetCommentCheck, Follow;
    match c
    case Approve(item, at) => ApproveNotes(db, item, at);
    case Report(item, user, at) => ReportNotes(db, item, user, at);
    case Vote(item, user, keep, at) => VoteNotes(db, item, user, keep, at);
    case SetCommentCheck(id, worker, version, verdict, at) =>
      SetCommentCheckNotes(db, id, worker, version, verdict, at);
  }

  lemma MoveUnderNotes(db: Db, id: Id, under: Id, at: int)
    requires C.MoveUnder(db, id, under, at).Some?
    ensures Follow(db, C.MoveUnder(db, id, under, at).value)
  {
    hide C.ThreadChanged, Follow, NotesQuiet, SameNoteJobs;
    var p := db.posts[id].(continues := Some(under));
    SameJobs(db.jobs);
    PostPutQuiet(db, db.(posts := db.posts[id := p]), id, p);
    QuietSelf(C.MoveUnder(db, id, under, at).value);
    ToldFollows(db, db.(posts := db.posts[id := p]), id, at, C.MoveUnder(db, id, under, at).value);
  }

  lemma MoveOutNotes(db: Db, id: Id, at: int)
    requires C.MoveOut(db, id, at).Some?
    ensures Follow(db, C.MoveOut(db, id, at).value)
  {
    hide C.ThreadChanged, Follow, NotesQuiet, SameNoteJobs;
    QuietSelf(db);
    if db.posts[id].continues.Some? {
      var told := C.ThreadChanged(db, id, at).value;
      SameJobs(told.jobs);
      PostPutQuiet(told, C.MoveOut(db, id, at).value, id, told.posts[id].(continues := None));
      ToldFollows(db, db, id, at, C.MoveOut(db, id, at).value);
    }
  }

  lemma RemovalNotes(db: Db, id: Id, at: int)
    requires C.RequestArchiveRemoval(db, id, at).Some?
    ensures Follow(db, C.RequestArchiveRemoval(db, id, at).value)
  {
    hide C.ThreadChanged, Follow, NotesQuiet, SameNoteJobs;
    QuietSelf(db);
    if !Gone(db.posts[id].status) {
      var set1 := C.SetStatus(db, Item(APost, id), Removed, Some(at + MOD_REMOVE_KEEP));
      var put := set1.(fts := map i | i in db.fts && db.fts[i] != id :: db.fts[i]);
      StatusQuiet(db, Item(APost, id), Removed, Some(at + MOD_REMOVE_KEEP));
      hide C.SetStatus;
      SameJobs(set1.jobs);
      TablesQuiet(set1, put);
      QuietThen(db, set1, put);
      QuietSelf(C.RequestArchiveRemoval(db, id, at).value);
      ToldFollows(db, put, id, at, C.RequestArchiveRemoval(db, id, at).value);
    }
  }

  lemma {:induction false} ImportCommentsNotes(im: C.Import, pid: Id, cms: seq<C.ArchiveComment>)
    requires C.ImportComments(im, pid, cms).Some?
    ensures var r := C.ImportComments(im, pid, cms).value.db;
            r.sources == im.db.sources && r.notes == im.db.notes && r.group == im.db.group && r.posts == im.db.posts &&
            r.links == im.db.links && r.jobs == im.db.jobs
    decreases |cms|
  {
    hide C.FreshImages, C.WithImages;
    if cms != [] {
      ImportCommentsNotes(im, pid, cms[..|cms| - 1]);
    }
  }

  /** What an import writes before anyone is told. */
  lemma ImportQuiet(db: Db, id: Id, ref: string, title: string, body: string, images: seq<Id>,
                    cms: seq<C.ArchiveComment>)
    requires C.ImportRow(db, id, ref, title, body, images).Some?
    requires C.ImportComments(C.Import(C.ImportRow(db, id, ref, title, body, images).value, map[], false),
                              Target(db, id, ref), cms).Some?
    ensures var im := C.ImportComments(C.Import(C.ImportRow(db, id, ref, title, body, images).value, map[], false),
                                       Target(db, id, ref), cms).value.db;
            Target(db, id, ref) in im.posts && NotesQuiet(db, C.Recount(im, Target(db, id, ref)))
  {
    hide C.ImportComments, NotesQuiet, SameNoteJobs;
    var row, pid := C.ImportRow(db, id, ref, title, body, images).value, Target(db, id, ref);
    ImportRowNotes(db, id, ref, title, body, images);
    hide C.ImportRow;
    ImportCommentsNotes(C.Import(row, map[], false), pid, cms);
    var im := C.ImportComments(C.Import(row, map[], false), pid, cms).value.db;
    SameJobs(db.jobs);
    PostPutQuiet(db, row, pid, row.posts[pid]);
    CountQuiet(row, C.Recount(im, pid), pid, C.Recount(im, pid).posts[pid].commentCount);
    QuietThen(db, row, C.Recount(im, pid));
  }

  lemma ImportPostNotes(db: Db, id: Id, ref: string, title: string, body: string, images: seq<Id>,
                        cms: seq<C.ArchiveComment>, at: int)
    requires C.ImportPost(db, id, ref, title, body, images, cms, at).Some?
    ensures Follow(db, C.ImportPost(db, id, ref, title, body, images, cms, at).value)
  {
    hide C.ImportComments, C.ThreadChanged, C.ImportRow, Schedule, ShownComments, Follow, NotesQuiet, SameNoteJobs,
      C.Marked;
    var pid := Target(db, id, ref);
    var end := C.ImportPost(db, id, ref, title, body, images, cms, at).value;
    if ref in db.postRefs && pid in db.posts && !Shown(db.posts[pid].status) {
      QuietSelf(db);
    } else {
      var im := C.ImportComments(C.Import(C.ImportRow(db, id, ref, title, body, images).value, map[], false), pid, cms).value;
      ImportQuiet(db, id, ref, title, body, images, cms);
      var counted := C.Recount(im.db, pid);
      hide C.Recount;
      if ref !in db.postRefs {
        NewImportNotes(db, counted, pid, at, end);
      } else if pid in db.posts && (db.posts[pid].title != title || db.posts[pid].body != body) {
        assert C.PostEdited(counted, pid, at) == Some(end);
        MarkedQuiet(counted, pid, at);
        QuietThen(db, counted, C.Marked(counted, pid, at));
        QuietSelf(end);
        ToldFollows(db, C.Marked(counted, pid, at), pid, at, end);
      } else if im.changed {
        QuietSelf(end);
        ToldFollows(db, counted, pid, at, end);
      } else {
        QuietFollows(db, counted);
      }
    }
  }

  lemma NewImportNotes(db: Db, counted: Db, pid: Id, at: int, end: Db)
    requires NotesQuiet(db, counted)
    requires end == counted.(jobs := Schedule(Schedule(counted.jobs, JobKey(Check, pid), 1, at, at), JobKey(Digest, pid), 1, at, at))
    ensures Follow(db, end)
  {
    var one := Schedule(counted.jobs, JobKey(Check, pid), 1, at, at);
    hide NotesQuiet, SameNoteJobs, Follow;
    OtherKey(counted.jobs, JobKey(Check, pid), 1, at, at);
    OtherKey(one, JobKey(Digest, pid), 1, at, at);
    SameNoteJobsThen(counted.jobs, one, end.jobs);
    hide Schedule;
    TablesQuiet(counted, end);
    QuietThen(db, counted, end);
    QuietFollows(db, end);
  }

  lemma ImportRowNotes(db: Db, id: Id, ref: string, title: string, body: string, images: seq<Id>)
    requires C.ImportRow(db, id, ref, title, body, images).Some?
    ensures var row, pid := C.ImportRow(db, id, ref, title, body, images).value, Target(db, id, ref);
            row.sources == db.sources && row.notes == db.notes && row.group == db.group && row.jobs == db.jobs &&
            row.links == db.links &&
            pid in row.posts && row.posts == db.posts[pid := row.posts[pid]] &&
            (pid in db.posts ==> row.posts[pid].threadVersion == db.posts[pid].threadVersion)
  {
    hide C.FreshImages, C.WithImages;
  }

  lemma CreatePostNotes(db: Db, id: Id, user: Id, title: string, body: string, images: seq<Id>, at: int)
    requires C.CreatePost(db, id, user, title, body, images, at).Some?
    ensures Follow(db, C.CreatePost(db, id, user, title, body, images, at).value)
  {
    hide C.FirstPostStatus, C.WithImages, C.FreshImages, C.IsMember, Follow, NotesQuiet;
    var end := C.CreatePost(db, id, user, title, body, images, at).value;
    assert SameNoteJobs(db.jobs, end.jobs);
    hide SameNoteJobs;
    PostPutQuiet(db, end, id, end.posts[id]);
    QuietFollows(db, end);
  }

  lemma SetDigestNotes(db: Db, c: Cmd)
    requires c.SetDigest? && Step(db, c).Some?
    ensures Follow(db, Step(db, c).value)
  {
    hide Finish, Accepts, C.Cut, C.SetDigest, Follow, NotesQuiet, SameNoteJobs;
    var end := Step(db, c).value;
    Digests.SetDigestIs(db, c.id, c.worker, c.version, c.digest, c.at);
    SetDigestRest(db, c.id, c.worker, c.version, c.digest, c.at);
    OtherFinish(db.jobs, JobKey(Digest, c.id), c.worker, c.version, db.posts[c.id].threadVersion, c.at);
    PostPutQuiet(db, end, c.id, end.posts[c.id]);
    QuietFollows(db, end);
  }

  lemma SetDigestRest(db: Db, id: Id, worker: string, version: nat, digest: string, at: int)
    requires C.SetDigest(db, id, worker, version, digest, at).Some?
    ensures var r := C.SetDigest(db, id, worker, version, digest, at).value;
            r.group == db.group && r.sources == db.sources && r.notes == db.notes && r.links == db.links
  {
    hide Finish, Accepts, C.Cut;
  }
}
