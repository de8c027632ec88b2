/**
 What an import of an archive thread does to the threads people read, and to the index: it may find
 a comment stored under another thread, and it may hang a comment elsewhere without any new text
 (internal/cmd/archive.go). When that does harm, and when not, for any import.
 */
module Imports {
  import opened Types
  import opened Jobs
  import opened Tables
  import opened Commands
  import opened Content
  import opened Archive
  import opened Versions
  import opened Telling
  import opened Index

  // ---- What an archive brings ----

  /** A thread that was taken down is left as it is. */
  predicate LeftAlone(db: Db, ref: string) {
    ref in db.postRefs && db.postRefs[ref] in db.posts && !Shown(db.posts[db.postRefs[ref]].status)
  }

  /** The post an import is about. */
  function Target(db: Db, id: Id, ref: string): Id { if ref in db.postRefs then db.postRefs[ref] else id }

  function Refs(cms: seq<ArchiveComment>): set<string> {
    set cm | cm in cms :: cm.ref
  }

  predicate StoredShown(db: Db, ref: string) {
    ref in db.commentRefs && db.commentRefs[ref] in db.comments && Shown(db.comments[db.commentRefs[ref]].status)
  }

  /** No later comment of the archive has the same reference. */
  predicate Last(cms: seq<ArchiveComment>, k: nat)
    requires k < |cms|
  {
    forall j | k < j < |cms| :: cms[j].ref != cms[k].ref
  }

  /** A stored comment reads as the archive has it: the same text, and a reply if the comment the
      archive names as its parent comes before it. */
  predicate AsArchived(c: Comment, cms: seq<ArchiveComment>, k: nat)
    requires k < |cms|
  {
    c.body == cms[k].body && (c.parent.Some? <==> cms[k].parentRef in Refs(cms[..k]))
  }

  /** A comment that is new, or reads differently. */
  predicate BringsText(db: Db, cm: ArchiveComment) {
    cm.ref !in db.commentRefs || (StoredShown(db, cm.ref) && db.comments[db.commentRefs[cm.ref]].body != cm.body)
  }

  predicate BringsNews(db: Db, pid: Id, title: string, body: string, cms: seq<ArchiveComment>) {
    || pid !in db.posts
    || db.posts[pid].title != title || db.posts[pid].body != body
    || exists cm <- cms :: BringsText(db, cm)
  }

  /** The threads an import tells: if it brings any new text, those its post is part of. */
  function ToldThreads(db: Db, id: Id, ref: string, title: string, body: string, cms: seq<ArchiveComment>): set<Id> {
    var pid := Target(db, id, ref);
    if BringsNews(db, pid, title, body, cms) then Threads(db.posts, pid) else {}
  }

  /** The archive has the shown comments under post q that it names as they are stored. */
  ghost predicate Kept(db: Db, cms: seq<ArchiveComment>, q: Id) {
    forall k | 0 <= k < |cms| && StoredShown(db, cms[k].ref) && Last(cms, k) ::
      var c := db.comments[db.commentRefs[cms[k].ref]]; c.post == q ==> AsArchived(c, cms, k)
  }

  /** Thread p is told, or nothing changes in what is read there: its own comments and those of its
      shown updates. */
  ghost predicate TellsReaders(db: Db, told: set<Id>, cms: seq<ArchiveComment>, p: Id) {
    p in told || (Kept(db, cms, p) && forall q <- ShownUpdates(db.posts, p) :: Kept(db, cms, q))
  }

  /** The comments of the archive that are stored and shown are stored under this post. */
  ghost predicate AtHome(db: Db, pid: Id, cms: seq<ArchiveComment>) {
    forall cm <- cms | StoredShown(db, cm.ref) :: db.comments[db.commentRefs[cm.ref]].post == pid
  }

  lemma SameArchive(a: Db, b: Db, pid: Id, cms: seq<ArchiveComment>)
    requires a.comments == b.comments && a.commentRefs == b.commentRefs
    ensures AtHome(a, pid, cms) <==> AtHome(b, pid, cms)
    ensures (exists cm <- cms :: BringsText(a, cm)) <==> (exists cm <- cms :: BringsText(b, cm))
  {
  }

  // ---- What the loop over the comments leaves ----

  predicate SameButText(c: Comment, d: Comment) { d == c.(body := d.body, parent := d.parent) }

  /** Stored comments keep their place, new ones are under this post. */
  ghost predicate SameRows(was: Comments, now: Comments, pid: Id, changed: bool) {
    && (forall c <- was :: c in now && SameButText(was[c], now[c]))
    && (forall c <- now :: c in was || (changed && now[c].post == pid))
  }

  ghost predicate SameRefs(was: Comments, refs: map<string, Id>, refs': map<string, Id>, changed: bool) {
    && (forall r <- refs :: r in refs' && refs'[r] == refs[r])
    && (forall r <- refs' :: r in refs || (changed && refs'[r] !in was))
  }

  /** Where the loop has got to. */
  ghost predicate Brought(base: Db, im: Import, pid: Id, cms: seq<ArchiveComment>) {
    && im.ids.Keys == Refs(cms) && im.db.posts == base.posts && im.db.jobs == base.jobs
    && SameRows(base.comments, im.db.comments, pid, im.changed)
    && SameRefs(base.comments, base.commentRefs, im.db.commentRefs, im.changed)
  }

  lemma RowRewritten(was: Comments, now: Comments, pid: Id, changed: bool, changed': bool, id: Id, c: Comment)
    requires SameRows(was, now, pid, changed) && (changed ==> changed') && id in now && SameButText(now[id], c)
    ensures SameRows(was, now[id := c], pid, changed')
  {
  }

  lemma RowAdded(was: Comments, now: Comments, refs: map<string, Id>, refs': map<string, Id>, pid: Id, changed: bool,
                 r: string, id: Id, c: Comment)
    requires SameRows(was, now, pid, changed) && SameRefs(was, refs, refs', changed) && id !in now && c.post == pid &&
             r !in refs'
    ensures SameRows(was, now[id := c], pid, true) && SameRefs(was, refs, refs'[r := id], true)
  {
  }

  lemma BroughtNone(base: Db, pid: Id)
    ensures Brought(base, Import(base, map[], false), pid, [])
  {
  }

  lemma RefsSnoc(cms: seq<ArchiveComment>)
    requires cms != []
    ensures Refs(cms) == Refs(cms[..|cms| - 1]) + {cms[|cms| - 1].ref}
  {
  }

  /** One comment of the archive: a new row under this post, or the stored row at most rewritten. */
  lemma ImportCommentIs(im: Import, pid: Id, cm: ArchiveComment) returns (id: Id)
    requires ImportComment(im, pid, cm).Some?
    ensures var r := ImportComment(im, pid, cm).value;
            r.ids.Keys == im.ids.Keys + {cm.ref} && r.db.posts == im.db.posts && r.db.jobs == im.db.jobs &&
            (im.changed ==> r.changed)
    ensures var db, r := im.db, ImportComment(im, pid, cm).value;
            if cm.ref in db.commentRefs then
              id == db.commentRefs[cm.ref] && id in db.comments && id in r.db.comments &&
              r.db.commentRefs == db.commentRefs &&
              SameButText(db.comments[id], r.db.comments[id]) &&
              r.db.comments == db.comments[id := r.db.comments[id]] &&
              (!Shown(db.comments[id].status) ==> r.db.comments[id] == db.comments[id])
            else
              id !in db.comments && id in r.db.comments && r.changed && r.db.comments[id].post == pid &&
              r.db.comments == db.comments[id := r.db.comments[id]] && r.db.commentRefs == db.commentRefs[cm.ref := id]
  {
    hide FreshImages, WithImages;
    if cm.ref !in im.db.commentRefs {
      id := cm.id;
    } else {
      id := im.db.commentRefs[cm.ref];
      if Shown(im.db.comments[id].status) {
      } else {
      }
    }
  }

  lemma ImportCommentRow(im: Import, pid: Id, cm: ArchiveComment, id: Id)
    requires ImportComment(im, pid, cm).Some?
    requires if cm.ref in im.db.commentRefs then id == im.db.commentRefs[cm.ref]
             else id !in im.db.comments && id in ImportComment(im, pid, cm).value.db.comments
    ensures var r := ImportComment(im, pid, cm).value;
            r.db.fts == im.db.fts || r.db.fts == im.db.fts[id := pid]
    ensures var r := ImportComment(im, pid, cm).value;
            StoredShown(im.db, cm.ref) ==>
              (id in r.db.comments && r.db.comments[id].body == cm.body && r.db.fts == im.db.fts[id := pid] &&
               (r.db.comments[id].parent.Some? <==> cm.parentRef in im.ids))
  {
  }

  lemma BroughtNext(base: Db, im: Import, pid: Id, cms: seq<ArchiveComment>)
    requires cms != [] && Brought(base, im, pid, cms[..|cms| - 1]) && ImportComment(im, pid, cms[|cms| - 1]).Some?
    requires forall r <- base.commentRefs :: base.commentRefs[r] in base.comments
    ensures Brought(base, ImportComment(im, pid, cms[|cms| - 1]).value, pid, cms)
  {
    RefsSnoc(cms);
    var cm, r := cms[|cms| - 1], ImportComment(im, pid, cms[|cms| - 1]).value;
    var id := ImportCommentIs(im, pid, cm);
    hide Refs, ImportComment, SameRows, SameButText;
    if cm.ref in im.db.commentRefs {
      RowRewritten(base.comments, im.db.comments, pid, im.changed, r.changed, id, r.db.comments[id]);
    } else {
      hide SameRefs;
      RowAdded(base.comments, im.db.comments, base.commentRefs, im.db.commentRefs, pid, im.changed, cm.ref, id,
               r.db.comments[id]);
    }
  }

  lemma {:induction false} AllBrought(base: Db, pid: Id, cms: seq<ArchiveComment>)
    requires ImportComments(Import(base, map[], false), pid, cms).Some?
    requires forall r <- base.commentRefs :: base.commentRefs[r] in base.comments
    ensures Brought(base, ImportComments(Import(base, map[], false), pid, cms).value, pid, cms)
    decreases |cms|
  {
    hide Brought, ImportComment;
    if cms == [] {
      BroughtNone(base, pid);
    } else {
      AllBrought(base, pid, cms[..|cms| - 1]);
      BroughtNext(base, ImportComments(Import(base, map[], false), pid, cms[..|cms| - 1]).value, pid, cms);
    }
  }

  /** Nothing new so far means the same bodies and references so far. */
  ghost predicate NoNews(base: Db, im: Import) {
    im.db.commentRefs == base.commentRefs &&
    forall c <- base.comments :: c in im.db.comments && im.db.comments[c].body == base.comments[c].body
  }

  lemma NewsNext(base: Db, im: Import, pid: Id, cms: seq<ArchiveComment>)
    requires cms != [] && Brought(base, im, pid, cms[..|cms| - 1]) && ImportComment(im, pid, cms[|cms| - 1]).Some?
    requires !im.changed ==> NoNews(base, im)
    ensures var r := ImportComment(im, pid, cms[|cms| - 1]).value;
            (r.changed <==> im.changed || BringsText(base, cms[|cms| - 1])) && (!r.changed ==> NoNews(base, r))
  {
    hide Refs, FreshImages, WithImages;
  }

  /** Whether the loop reports a change can be seen beforehand. */
  lemma {:induction false} ChangedIff(base: Db, pid: Id, cms: seq<ArchiveComment>)
    requires ImportComments(Import(base, map[], false), pid, cms).Some?
    requires forall r <- base.commentRefs :: base.commentRefs[r] in base.comments
    ensures var im := ImportComments(Import(base, map[], false), pid, cms).value;
            (im.changed <==> exists cm <- cms :: BringsText(base, cm)) && (!im.changed ==> NoNews(base, im))
    decreases |cms|
  {
    hide Brought, ImportComment, BringsText, NoNews;
    if cms == [] {
      NoNewsYet(base);
    } else {
      var init := cms[..|cms| - 1];
      ChangedIff(base, pid, init);
      AllBrought(base, pid, init);
      NewsNext(base, ImportComments(Import(base, map[], false), pid, init).value, pid, cms);
      assert cms == init + [cms[|init|]];
    }
  }

  lemma NoNewsYet(base: Db)
    ensures NoNews(base, Import(base, map[], false))
  {
  }

  lemma RefsApart(comments: Comments, refs: map<string, Id>, r: string, s: string)
    requires CommentRefsRight(comments, refs) && r in refs && s in refs && r != s
    ensures refs[r] != refs[s]
  {
    assert CommentRefFine(comments, refs, r) && CommentRefFine(comments, refs, s);
  }

  lemma RefsStored(comments: Comments, refs: map<string, Id>)
    requires CommentRefsRight(comments, refs)
    ensures forall r <- refs :: refs[r] in comments
  {
    assert forall r | r in refs :: CommentRefFine(comments, refs, r);
  }

  lemma StillStoredShown(base: Db, im: Import, pid: Id, cms: seq<ArchiveComment>, r: string)
    requires Brought(base, im, pid, cms) && r in base.commentRefs && base.commentRefs[r] in base.comments
    ensures r in im.db.commentRefs && im.db.commentRefs[r] == base.commentRefs[r] &&
            base.commentRefs[r] in im.db.comments
    ensures StoredShown(im.db, r) <==> StoredShown(base, r)
  {
    assert SameButText(base.comments[base.commentRefs[r]], im.db.comments[base.commentRefs[r]]);
  }

  /** What comment k of the archive left in its row and in the index. */
  ghost predicate LastWord(base: Db, im: Import, pid: Id, cms: seq<ArchiveComment>, k: nat)
    requires k < |cms| && StoredShown(base, cms[k].ref)
  {
    var c := base.commentRefs[cms[k].ref];
    && c in im.db.comments && c in im.db.fts && im.db.fts[c] == pid
    && (Last(cms, k) ==> AsArchived(im.db.comments[c], cms, k))
  }

  lemma LastWordNow(base: Db, im: Import, pid: Id, cms: seq<ArchiveComment>)
    requires cms != [] && Brought(base, im, pid, cms[..|cms| - 1]) && ImportComment(im, pid, cms[|cms| - 1]).Some?
    requires StoredShown(base, cms[|cms| - 1].ref)
    ensures LastWord(base, ImportComment(im, pid, cms[|cms| - 1]).value, pid, cms, |cms| - 1)
  {
    var cm := cms[|cms| - 1];
    StillStoredShown(base, im, pid, cms[..|cms| - 1], cm.ref);
    ImportCommentRow(im, pid, cm, base.commentRefs[cm.ref]);
    hide ImportComment, Refs, StoredShown, SameRows, SameRefs;
  }

  lemma LastWordStays(base: Db, im: Import, pid: Id, cms: seq<ArchiveComment>, k: nat)
    requires cms != [] && Brought(base, im, pid, cms[..|cms| - 1]) && ImportComment(im, pid, cms[|cms| - 1]).Some?
    requires CommentRefsRight(base.comments, base.commentRefs)
    requires k < |cms| - 1 && StoredShown(base, cms[k].ref) && LastWord(base, im, pid, cms[..|cms| - 1], k)
    ensures LastWord(base, ImportComment(im, pid, cms[|cms| - 1]).value, pid, cms, k)
  {
    var init, cm, c := cms[..|cms| - 1], cms[|cms| - 1], base.commentRefs[cms[k].ref];
    var id := ImportCommentIs(im, pid, cm);
    ImportCommentRow(im, pid, cm, id);
    assert init[k] == cms[k] && init[..k] == cms[..k];
    if Last(cms, k) {
      assert Last(init, k);
      if cm.ref in base.commentRefs { RefsApart(base.comments, base.commentRefs, cm.ref, cms[k].ref); }
      hide ImportComment, Refs, StoredShown, CommentRefsRight;
      assert c != id;
    }
  }

  lemma {:induction false} LastWordStored(base: Db, pid: Id, cms: seq<ArchiveComment>, k: nat)
    requires ImportComments(Import(base, map[], false), pid, cms).Some? &&
             CommentRefsRight(base.comments, base.commentRefs)
    requires k < |cms| && StoredShown(base, cms[k].ref)
    ensures LastWord(base, ImportComments(Import(base, map[], false), pid, cms).value, pid, cms, k)
    decreases |cms|
  {
    var init := cms[..|cms| - 1];
    RefsStored(base.comments, base.commentRefs);
    hide ImportComment, LastWord, Brought, CommentRefsRight, StoredShown;
    AllBrought(base, pid, init);
    var before := ImportComments(Import(base, map[], false), pid, init).value;
    if k == |cms| - 1 {
      LastWordNow(base, before, pid, cms);
    } else {
      LastWordStored(base, pid, init, k);
      LastWordStays(base, before, pid, cms, k);
    }
  }

  /** A comment the archive does not name, or that is hidden, stays as it is. */
  lemma {:induction false} Untouched(base: Db, pid: Id, cms: seq<ArchiveComment>, c: Id)
    requires ImportComments(Import(base, map[], false), pid, cms).Some? &&
             CommentRefsRight(base.comments, base.commentRefs)
    requires c in base.comments && forall k | 0 <= k < |cms| && StoredShown(base, cms[k].ref) :: base.commentRefs[cms[k].ref] != c
    ensures var im := ImportComments(Import(base, map[], false), pid, cms).value;
            c in im.db.comments && im.db.comments[c] == base.comments[c]
    decreases |cms|
  {
    if cms != [] {
      var init, cm := cms[..|cms| - 1], cms[|cms| - 1];
      assert forall k | 0 <= k < |init| :: init[k] == cms[k];
      RefsStored(base.comments, base.commentRefs);
      hide ImportComment, CommentRefsRight, StoredShown;
      Untouched(base, pid, init, c);
      AllBrought(base, pid, init);
      var before := ImportComments(Import(base, map[], false), pid, init).value;
      var id := ImportCommentIs(before, pid, cm);
      if id == c { NotTouchedHere(base, before, pid, cms, c); }
    }
  }

  lemma NotTouchedHere(base: Db, im: Import, pid: Id, cms: seq<ArchiveComment>, c: Id)
    requires cms != [] && Brought(base, im, pid, cms[..|cms| - 1]) && ImportComment(im, pid, cms[|cms| - 1]).Some?
    requires CommentRefsRight(base.comments, base.commentRefs)
    requires c in base.comments && cms[|cms| - 1].ref in im.db.commentRefs && im.db.commentRefs[cms[|cms| - 1].ref] == c
    requires StoredShown(base, cms[|cms| - 1].ref) ==> base.commentRefs[cms[|cms| - 1].ref] != c
    ensures !Shown(im.db.comments[c].status)
  {
    assert SameButText(base.comments[c], im.db.comments[c]);
  }

  lemma {:induction false} LastOf(cms: seq<ArchiveComment>, k: nat) returns (j: nat)
    requires k < |cms|
    ensures j < |cms| && cms[j].ref == cms[k].ref && Last(cms, j)
    decreases |cms| - k
  {
    j := k;
    if i :| k < i < |cms| && cms[i].ref == cms[k].ref { j := LastOf(cms, i); }
  }

  // ---- What an import comes to ----

  /** The posts read as before, and hang together as before. */
  ghost predicate SameHeads(a: Posts, b: Posts) {
    a.Keys <= b.Keys && forall q <- a ::
      b[q].user == a[q].user && b[q].title == a[q].title && b[q].body == a[q].body &&
      b[q].status == a[q].status && b[q].continues == a[q].continues
  }

  lemma SameContentHeads(a: Db, b: Db)
    requires SameContent(a, b)
    ensures SameHeads(a.posts, b.posts) && b.comments == a.comments && b.fts == a.fts
  {
    assert forall q <- a.posts :: SameRow(a.posts[q], b.posts[q]);
  }

  lemma ToldAfter(db: Db, put: Db, pid: Id, at: int)
    requires Tells(db.posts, db.jobs, put.posts, put.jobs, {}) && pid in db.posts &&
             Threads(put.posts, pid) == Threads(db.posts, pid)
    requires ThreadChanged(put, pid, at).Some?
    ensures var r := ThreadChanged(put, pid, at).value;
            Tells(db.posts, db.jobs, r.posts, r.jobs, Threads(db.posts, pid)) && r.comments == put.comments &&
            r.fts == put.fts &&
            SameHeads(put.posts, r.posts) && r.posts.Keys == put.posts.Keys
  {
    hide ThreadChanged, Tells, Threads;
    ThreadChangedTells(put, pid, at);
    ThreadChangedSame(put, pid, at);
    SameContentHeads(put, ThreadChanged(put, pid, at).value);
    TellsThen(db, put, ThreadChanged(put, pid, at).value, {}, Threads(db.posts, pid));
    assert {} + Threads(db.posts, pid) == Threads(db.posts, pid);
  }

  lemma EditedAfter(db: Db, put: Db, pid: Id, at: int)
    requires Tells(db.posts, db.jobs, put.posts, put.jobs, {}) && pid in db.posts &&
             Threads(put.posts, pid) == Threads(db.posts, pid)
    requires pid in put.posts && PostEdited(put, pid, at).Some?
    ensures var r := PostEdited(put, pid, at).value;
            Tells(db.posts, db.jobs, r.posts, r.jobs, Threads(db.posts, pid)) && r.comments == put.comments &&
            r.fts == put.fts &&
            SameHeads(put.posts, r.posts) && r.posts.Keys == put.posts.Keys
  {
    var marked := Marked(put, pid, at);
    MarkedIsQuiet(put, pid, at);
    hide ThreadChanged, Threads;
    assert SameHeads(put.posts, marked.posts);
    TellsThen(db, put, marked, {}, {});
    var none: set<Id> := {};
    assert none + none == none;
    hide Tells, Marked;
    ToldAfter(db, marked, pid, at);
  }

  /** The post's row as the import leaves it, apart from versions. */
  ghost predicate HeadIs(db: Db, posts: Posts, pid: Id, title: string, body: string) {
    && posts.Keys == db.posts.Keys + {pid}
    && posts[pid].title == title && posts[pid].body == body
    && (forall q <- db.posts :: q != pid ==>
         posts[q].user == db.posts[q].user && posts[q].title == db.posts[q].title && posts[q].body == db.posts[q].body)
    && (forall q <- db.posts :: posts[q].status == db.posts[q].status && posts[q].continues == db.posts[q].continues)
    && (if pid in db.posts then posts[pid].user == db.posts[pid].user
        else posts[pid].continues.None? && posts[pid].status == Visible)
  }

  lemma HeadStays(db: Db, a: Posts, b: Posts, pid: Id, title: string, body: string)
    requires HeadIs(db, a, pid, title, body) && SameHeads(a, b) && a.Keys == b.Keys
    ensures HeadIs(db, b, pid, title, body)
  {
  }

  /** Everything stored, nobody told yet. */
  lemma CountedIs(db: Db, id: Id, ref: string, title: string, body: string, images: seq<Id>, cms: seq<ArchiveComment>)
    requires CommentRefsRight(db.comments, db.commentRefs)
    requires ImportRow(db, id, ref, title, body, images).Some?
    requires ImportComments(Import(ImportRow(db, id, ref, title, body, images).value, map[], false),
                            Target(db, id, ref), cms).Some?
    ensures var pid, row := Target(db, id, ref), ImportRow(db, id, ref, title, body, images).value;
            var im := ImportComments(Import(row, map[], false), pid, cms).value;
            pid in im.db.posts &&
            var put := Recount(im.db, pid);
            pid in put.posts && HeadIs(db, put.posts, pid, title, body) && put.comments == im.db.comments &&
            put.fts == im.db.fts && put.jobs == db.jobs &&
            Threads(put.posts, pid) == Threads(db.posts, pid) &&
            (pid in db.posts ==> Tells(db.posts, db.jobs, put.posts, put.jobs, {})) &&
            (pid !in db.posts ==> put.posts[pid].threadVersion == 1 && put.posts == db.posts[pid := put.posts[pid]])
  {
    var pid, row := Target(db, id, ref), ImportRow(db, id, ref, title, body, images).value;
    ImportRowRows(db, id, ref, title, body, images);
    RefsStored(db.comments, db.commentRefs);
    AllBrought(row, pid, cms);
    hide ImportRow, ImportComments, SameRows, SameRefs, Refs, CommentRefsRight;
    var im := ImportComments(Import(row, map[], false), pid, cms).value;
    var put, n := Recount(im.db, pid), |ShownComments(im.db.comments, pid)|;
    hide ShownComments, HeadIs, Threads, Tells;
    CountedPosts(db, row.posts, pid, title, body, n);
    assert put.posts == row.posts[pid := row.posts[pid].(commentCount := n)];
  }

  lemma CountedPosts(db: Db, rows: Posts, pid: Id, title: string, body: string, n: int)
    requires pid in rows && rows == db.posts[pid := rows[pid]]
    requires if pid in db.posts then rows[pid] == db.posts[pid].(title := title, body := body)
             else rows[pid].threadVersion == 1 && rows[pid].continues.None? && rows[pid].status == Visible &&
                  rows[pid].title == title && rows[pid].body == body
    ensures var posts := rows[pid := rows[pid].(commentCount := n)];
            HeadIs(db, posts, pid, title, body) && Threads(posts, pid) == Threads(db.posts, pid) &&
            (pid in db.posts ==> Tells(db.posts, db.jobs, posts, db.jobs, {})) &&
            (pid !in db.posts ==> posts[pid].threadVersion == 1 && posts == db.posts[pid := posts[pid]])
  {
  }

  lemma ImportRowRows(db: Db, id: Id, ref: string, title: string, body: string, images: seq<Id>)
    requires ImportRow(db, id, ref, title, body, images).Some?
    ensures var row := ImportRow(db, id, ref, title, body, images).value;
            var pid := Target(db, id, ref);
            row.posts.Keys == db.posts.Keys + {pid} && row.posts == db.posts[pid := row.posts[pid]] &&
            (pid in db.posts <==> ref in db.postRefs) &&
            (pid in db.posts ==> row.posts[pid] == db.posts[pid].(title := title, body := body)) &&
            (pid !in db.posts ==> (row.posts[pid].threadVersion == 1 && row.posts[pid].continues.None? &&
               row.posts[pid].status == Visible &&
               row.posts[pid].title == title && row.posts[pid].body == body)) &&
            row.comments == db.comments && row.jobs == db.jobs && row.commentRefs == db.commentRefs &&
            row.fts == db.fts[pid := pid]
  {
  }

  lemma NewAfter(db: Db, put: Db, pid: Id, at: int)
    requires pid !in db.posts && pid in put.posts && put.posts == db.posts[pid := put.posts[pid]] &&
             put.jobs == db.jobs && put.posts[pid].threadVersion == 1
    ensures var jobs := Schedule(Schedule(put.jobs, JobKey(Check, pid), 1, at, at), JobKey(Digest, pid), 1, at, at);
            Tells(db.posts, db.jobs, put.posts, jobs, {pid}) && DigestOpen(put.posts, jobs, pid)
  {
  }

  /** An import that runs leaves what its loop stored, and has told exactly the threads it tells. */
  lemma ImportEnds(db: Db, id: Id, ref: string, title: string, body: string, images: seq<Id>, cms: seq<ArchiveComment>,
                   at: int)
    requires ImportPost(db, id, ref, title, body, images, cms, at).Some? && !LeftAlone(db, ref) &&
             CommentRefsRight(db.comments, db.commentRefs)
    ensures var pid := Target(db, id, ref);
            ImportRow(db, id, ref, title, body, images).Some? && (pid in db.posts <==> ref in db.postRefs) &&
            ImportComments(Import(ImportRow(db, id, ref, title, body, images).value, map[], false), pid, cms).Some?
    ensures var pid, r := Target(db, id, ref), ImportPost(db, id, ref, title, body, images, cms, at).value;
            var im := ImportComments(Import(ImportRow(db, id, ref, title, body, images).value, map[], false), pid, cms).value;
            HeadIs(db, r.posts, pid, title, body) && r.comments == im.db.comments && r.fts == im.db.fts &&
            (pid !in db.posts ==> DigestOpen(r.posts, r.jobs, pid)) &&
            Tells(db.posts, db.jobs, r.posts, r.jobs, ToldThreads(db, id, ref, title, body, cms))
  {
    hide ImportRow, ImportComments, PostEdited, ThreadChanged, Recount, Schedule, CommentRefsRight, HeadIs, SameHeads,
      Tells, BringsText, Threads, DigestOpen;
    var pid, row := Target(db, id, ref), ImportRow(db, id, ref, title, body, images).value;
    ImportRowRows(db, id, ref, title, body, images);
    var im := ImportComments(Import(row, map[], false), pid, cms).value;
    CountedIs(db, id, ref, title, body, images, cms);
    ChangedHere(db, row, pid, cms);
    var put, r := Recount(im.db, pid), ImportPost(db, id, ref, title, body, images, cms, at).value;
    if ref !in db.postRefs {
      NewAfter(db, put, pid, at);
      assert Threads(db.posts, pid) == {pid} by { NoThreads(db.posts, pid); }
    } else if db.posts[pid].title != title || db.posts[pid].body != body {
      EditedAfter(db, put, pid, at);
      HeadStays(db, put.posts, r.posts, pid, title, body);
    } else if im.changed {
      ToldAfter(db, put, pid, at);
      HeadStays(db, put.posts, r.posts, pid, title, body);
    }
  }

  lemma NoThreads(posts: Posts, x: Id)
    requires x !in posts
    ensures Threads(posts, x) == {x}
  {
  }

  lemma ChangedHere(db: Db, row: Db, pid: Id, cms: seq<ArchiveComment>)
    requires row.comments == db.comments && row.commentRefs == db.commentRefs &&
             CommentRefsRight(db.comments, db.commentRefs)
    requires ImportComments(Import(row, map[], false), pid, cms).Some?
    ensures ImportComments(Import(row, map[], false), pid, cms).value.changed <==>
            exists cm <- cms :: BringsText(db, cm)
  {
    hide ImportComments, CommentRefsRight, BringsText, NoNews;
    RefsStored(db.comments, db.commentRefs);
    ChangedIff(row, pid, cms);
    SameArchive(db, row, pid, cms);
  }

  // ---- Whether every reader is told ----

  /** The same comments are shown under q, and read the same. */
  lemma LinesSame(comments: Comments, now: Comments, pid: Id, changed: bool, q: Id)
    requires SameRows(comments, now, pid, changed) && (changed ==> q != pid)
    requires forall c <- comments | comments[c].post == q && Shown(comments[c].status) ::
               now[c].body == comments[c].body && (now[c].parent.Some? <==> comments[c].parent.Some?)
    ensures Lines(now, q) == Lines(comments, q)
  {
    forall c ensures c in Lines(now, q) <==> c in Lines(comments, q) {
      if c in comments { assert SameButText(comments[c], now[c]); }
    }
    forall c <- Lines(now, q) ensures Lines(now, q)[c] == Lines(comments, q)[c] {
      assert SameButText(comments[c], now[c]);
    }
  }

  /** A comment under a post whose comments the archive has as they are reads after the loop as before. */
  lemma KeptComment(db: Db, row: Db, pid: Id, cms: seq<ArchiveComment>, c: Id)
    requires row.comments == db.comments && row.commentRefs == db.commentRefs &&
             CommentRefsRight(db.comments, db.commentRefs)
    requires ImportComments(Import(row, map[], false), pid, cms).Some?
    requires c in db.comments && Kept(db, cms, db.comments[c].post)
    ensures var now := ImportComments(Import(row, map[], false), pid, cms).value.db.comments;
            c in now && now[c].body == db.comments[c].body && (now[c].parent.Some? <==> db.comments[c].parent.Some?)
  {
    hide ImportComments, CommentRefsRight;
    if k :| 0 <= k < |cms| && StoredShown(row, cms[k].ref) && row.commentRefs[cms[k].ref] == c {
      var j := LastOf(cms, k);
      assert StoredShown(db, cms[j].ref);
      LastWordStored(row, pid, cms, j);
    } else {
      Untouched(row, pid, cms, c);
    }
  }

  lemma SoundParts(db: Db)
    requires Sound(db)
    ensures CommentsHavePosts(db.posts, db.comments) && UpdatesOneDeep(db.posts) &&
            CommentRefsRight(db.comments, db.commentRefs)
  {
  }

  lemma KeptPost(db: Db, id: Id, ref: string, title: string, body: string, images: seq<Id>, cms: seq<ArchiveComment>,
                 at: int, q: Id)
    requires ImportPost(db, id, ref, title, body, images, cms, at).Some? && !LeftAlone(db, ref) &&
             CommentRefsRight(db.comments, db.commentRefs)
    requires q in db.posts && q !in ToldThreads(db, id, ref, title, body, cms) && Kept(db, cms, q)
    ensures var r := ImportPost(db, id, ref, title, body, images, cms, at).value;
            q in r.posts && Part(r.posts, r.comments, q) == Part(db.posts, db.comments, q)
  {
    var pid := Target(db, id, ref);
    ImportEnds(db, id, ref, title, body, images, cms, at);
    ImportRowRows(db, id, ref, title, body, images);
    var row := ImportRow(db, id, ref, title, body, images).value;
    var im := ImportComments(Import(row, map[], false), pid, cms).value;
    RefsStored(db.comments, db.commentRefs);
    AllBrought(row, pid, cms);
    ChangedHere(db, row, pid, cms);
    hide ImportRow, ImportComments, ImportPost, CommentRefsRight, Kept, SameRows, SameRefs, BringsText, Tells, Lines,
      Refs;
    forall c <- db.comments | db.comments[c].post == q && Shown(db.comments[c].status)
      ensures im.db.comments[c].body == db.comments[c].body &&
              (im.db.comments[c].parent.Some? <==> db.comments[c].parent.Some?)
    {
      KeptComment(db, row, pid, cms, c);
    }
    LinesSame(db.comments, im.db.comments, pid, im.changed, q);
  }

  /** A comment that was changed shows under its post. */
  lemma ChangedPost(db: Db, id: Id, ref: string, title: string, body: string, images: seq<Id>, cms: seq<ArchiveComment>,
                    at: int, k: nat)
    requires ImportPost(db, id, ref, title, body, images, cms, at).Some? && !LeftAlone(db, ref) &&
             CommentRefsRight(db.comments, db.commentRefs)
    requires k < |cms| && StoredShown(db, cms[k].ref) && Last(cms, k) &&
             !AsArchived(db.comments[db.commentRefs[cms[k].ref]], cms, k)
    ensures var q, r := db.comments[db.commentRefs[cms[k].ref]].post,
                        ImportPost(db, id, ref, title, body, images, cms, at).value;
            Lines(r.comments, q) != Lines(db.comments, q)
  {
    var pid, c := Target(db, id, ref), db.commentRefs[cms[k].ref];
    ImportEnds(db, id, ref, title, body, images, cms, at);
    ImportRowRows(db, id, ref, title, body, images);
    var row := ImportRow(db, id, ref, title, body, images).value;
    RefsStored(db.comments, db.commentRefs);
    AllBrought(row, pid, cms);
    assert StoredShown(row, cms[k].ref);
    LastWordStored(row, pid, cms, k);
    hide ImportRow, ImportComments, ImportPost, CommentRefsRight, ToldThreads, SameRefs, Refs, Tells;
    var r := ImportPost(db, id, ref, title, body, images, cms, at).value;
    assert SameButText(db.comments[c], r.comments[c]);
    LineDiffers(db.comments, r.comments, c);
  }

  lemma LineDiffers(a: Comments, b: Comments, c: Id)
    requires c in a && c in b && SameButText(a[c], b[c]) && Shown(a[c].status)
    requires a[c].body != b[c].body || (a[c].parent.Some? != b[c].parent.Some?)
    ensures Lines(a, a[c].post) != Lines(b, a[c].post)
  {
    assert c in Lines(a, a[c].post) && Lines(a, a[c].post)[c] != Lines(b, a[c].post)[c];
  }

  /** Different lines under a post are read in its thread, and in the one it is a shown update of. */
  lemma DifferentLines(a: Db, b: Db, p: Id, q: Id)
    requires p in a.posts && p in b.posts && ShownUpdates(b.posts, p) == ShownUpdates(a.posts, p)
    requires (q == p || q in ShownUpdates(a.posts, p)) && Lines(b.comments, q) != Lines(a.comments, q)
    ensures ViewOf(a, p) != ViewOf(b, p)
  {
    hide Lines;
    if q != p { assert View(a.posts, a.comments, p).updates[q] != View(b.posts, b.comments, p).updates[q]; }
  }

  lemma SameUpdatesAfter(db: Db, posts: Posts, pid: Id, title: string, body: string, p: Id)
    requires HeadIs(db, posts, pid, title, body)
    ensures ShownUpdates(posts, p) == ShownUpdates(db.posts, p)
  {
  }

  /** An update of a thread that is not told is not told either. */
  lemma UpdatesUntold(db: Db, id: Id, ref: string, title: string, body: string, cms: seq<ArchiveComment>, p: Id, q: Id)
    requires UpdatesOneDeep(db.posts) && p !in ToldThreads(db, id, ref, title, body, cms) &&
             q in ShownUpdates(db.posts, p)
    ensures q !in ToldThreads(db, id, ref, title, body, cms)
  {
    var pid := Target(db, id, ref);
    assert UpdateFine(db.posts, q) && (pid in db.posts ==> UpdateFine(db.posts, pid));
  }

  lemma UntoldViewKept(db: Db, id: Id, ref: string, title: string, body: string, images: seq<Id>,
                       cms: seq<ArchiveComment>, at: int, p: Id)
    requires ImportPost(db, id, ref, title, body, images, cms, at).Some? && !LeftAlone(db, ref)
    requires CommentRefsRight(db.comments, db.commentRefs) && UpdatesOneDeep(db.posts)
    requires p in db.posts && p !in ToldThreads(db, id, ref, title, body, cms) &&
             TellsReaders(db, ToldThreads(db, id, ref, title, body, cms), cms, p)
    ensures var r := ImportPost(db, id, ref, title, body, images, cms, at).value;
            p in r.posts && ViewOf(r, p) == ViewOf(db, p)
  {
    hide ImportPost, CommentRefsRight, Kept, Part, LeftAlone, ToldThreads, UpdatesOneDeep, HeadIs, Tells, ShownUpdates;
    var r := ImportPost(db, id, ref, title, body, images, cms, at).value;
    ImportEnds(db, id, ref, title, body, images, cms, at);
    SameUpdatesAfter(db, r.posts, Target(db, id, ref), title, body, p);
    KeptPost(db, id, ref, title, body, images, cms, at, p);
    forall q | q in ShownUpdates(db.posts, p)
      ensures q in db.posts && q in r.posts && Part(r.posts, r.comments, q) == Part(db.posts, db.comments, q)
    {
      UpdateIsPost(db.posts, p, q);
      UpdatesUntold(db, id, ref, title, body, cms, p, q);
      KeptPost(db, id, ref, title, body, images, cms, at, q);
    }
    SameViews(db, r, p);
  }

  lemma UpdateIsPost(posts: Posts, p: Id, q: Id)
    requires q in ShownUpdates(posts, p)
    ensures q in posts
  {
  }

  lemma SameViews(a: Db, b: Db, p: Id)
    requires p in a.posts && p in b.posts && ShownUpdates(b.posts, p) == ShownUpdates(a.posts, p)
    requires Part(b.posts, b.comments, p) == Part(a.posts, a.comments, p)
    requires forall q <- ShownUpdates(a.posts, p) ::
               q in a.posts && q in b.posts && Part(b.posts, b.comments, q) == Part(a.posts, a.comments, q)
    ensures ViewOf(b, p) == ViewOf(a, p)
  {
    hide Part;
  }

  /** Something that is read in a thread that is not told changes. */
  lemma ChangedReader(db: Db, told: set<Id>, cms: seq<ArchiveComment>, p: Id) returns (q: Id, k: nat)
    requires !TellsReaders(db, told, cms, p)
    ensures p !in told && (q == p || q in ShownUpdates(db.posts, p)) && k < |cms| && StoredShown(db, cms[k].ref) &&
            Last(cms, k)
    ensures db.comments[db.commentRefs[cms[k].ref]].post == q &&
            !AsArchived(db.comments[db.commentRefs[cms[k].ref]], cms, k)
  {
    if !Kept(db, cms, p) {
      q := p;
    } else {
      q :| q in ShownUpdates(db.posts, p) && !Kept(db, cms, q);
    }
    hide AsArchived, ShownUpdates, Last;
    k :| 0 <= k < |cms| && StoredShown(db, cms[k].ref) && Last(cms, k) &&
         db.comments[db.commentRefs[cms[k].ref]].post == q && !AsArchived(db.comments[db.commentRefs[cms[k].ref]], cms, k);
  }

  lemma UntoldViewChanged(db: Db, id: Id, ref: string, title: string, body: string, images: seq<Id>,
                          cms: seq<ArchiveComment>, at: int, p: Id)
    requires ImportPost(db, id, ref, title, body, images, cms, at).Some? && !LeftAlone(db, ref) &&
             CommentRefsRight(db.comments, db.commentRefs)
    requires p in db.posts && !TellsReaders(db, ToldThreads(db, id, ref, title, body, cms), cms, p)
    ensures var r := ImportPost(db, id, ref, title, body, images, cms, at).value;
            p in r.posts && ViewOf(r, p) != ViewOf(db, p)
  {
    hide ImportPost, CommentRefsRight, LeftAlone, ToldThreads, Tells, AsArchived, Last, ShownUpdates, Lines,
      TellsReaders, View,
      ImportRow, ImportComments;
    var r := ImportPost(db, id, ref, title, body, images, cms, at).value;
    ImportEnds(db, id, ref, title, body, images, cms, at);
    SameUpdatesAfter(db, r.posts, Target(db, id, ref), title, body, p);
    var q, k := ChangedReader(db, ToldThreads(db, id, ref, title, body, cms), cms, p);
    ChangedPost(db, id, ref, title, body, images, cms, at, k);
    DifferentLines(db, r, p, q);
  }

  /** Main result. Take any import that runs, and any thread. The thread's version still stands for its
      text afterwards, and if it moved the digest is queued, exactly when the thread is told or the
      archive has what is read there as it is stored: each comment with its text, a reply if it is one. */
  lemma ImportTellsThreadIff(db: Db, id: Id, ref: string, title: string, body: string, images: seq<Id>,
                             cms: seq<ArchiveComment>, at: int, p: Id)
    requires Sound(db) && ImportPost(db, id, ref, title, body, images, cms, at).Some? && !LeftAlone(db, ref) &&
             p in db.posts
    ensures var r := ImportPost(db, id, ref, title, body, images, cms, at).value;
            p in r.posts && ToldOne(db.posts, db.jobs, r.posts, r.jobs, p, p in ToldThreads(db, id, ref, title, body, cms)) &&
            (Steady(db, r, p) <==> TellsReaders(db, ToldThreads(db, id, ref, title, body, cms), cms, p))
  {
    SoundParts(db);
    ImportEnds(db, id, ref, title, body, images, cms, at);
    var told, r := ToldThreads(db, id, ref, title, body, cms), ImportPost(db, id, ref, title, body, images, cms, at).value;
    assert ToldOne(db.posts, db.jobs, r.posts, r.jobs, p, p in told);
    hide Sound, ImportPost, CommentRefsRight, ToldThreads, View, Tells, UpdatesOneDeep, HeadIs, CommentsHavePosts, Kept;
    if p in told {
    } else if TellsReaders(db, told, cms, p) {
      UntoldViewKept(db, id, ref, title, body, images, cms, at, p);
    } else {
      UntoldViewChanged(db, id, ref, title, body, images, cms, at, p);
    }
  }

  /** So it is for all threads together, with a new one's digest queued from the start. */
  lemma ImportTellsReadersIff(db: Db, id: Id, ref: string, title: string, body: string, images: seq<Id>,
                              cms: seq<ArchiveComment>, at: int)
    requires Sound(db) && ImportPost(db, id, ref, title, body, images, cms, at).Some? && !LeftAlone(db, ref)
    ensures Grows(db, ImportPost(db, id, ref, title, body, images, cms, at).value, Target(db, id, ref)) <==>
            forall p <- db.posts :: TellsReaders(db, ToldThreads(db, id, ref, title, body, cms), cms, p)
  {
    hide Sound, ImportPost, ToldThreads, Steady, TellsReaders, LeftAlone, DigestOpen;
    ImportAddsOne(db, id, ref, title, body, images, cms, at);
    var told, r := ToldThreads(db, id, ref, title, body, cms), ImportPost(db, id, ref, title, body, images, cms, at).value;
    forall p | p in db.posts ensures p in r.posts && (Steady(db, r, p) <==> TellsReaders(db, told, cms, p)) {
      ImportTellsThreadIff(db, id, ref, title, body, images, cms, at, p);
    }
  }

  /** An import adds its post, if that is new, with a digest to write. */
  lemma ImportAddsOne(db: Db, id: Id, ref: string, title: string, body: string, images: seq<Id>,
                      cms: seq<ArchiveComment>, at: int)
    requires Sound(db) && ImportPost(db, id, ref, title, body, images, cms, at).Some? && !LeftAlone(db, ref)
    ensures var pid, r := Target(db, id, ref), ImportPost(db, id, ref, title, body, images, cms, at).value;
            (pid in db.posts <==> ref in db.postRefs) && r.posts.Keys == db.posts.Keys + {pid} &&
            (pid !in db.posts ==> DigestOpen(r.posts, r.jobs, pid))
  {
    SoundParts(db);
    hide Sound, ImportPost, ImportRow, ImportComments, CommentRefsRight, ToldThreads, Tells, LeftAlone, DigestOpen;
    ImportEnds(db, id, ref, title, body, images, cms, at);
  }

  /** A comment that is changed under a post whose thread is not told. */
  lemma UntoldReader(db: Db, id: Id, ref: string, title: string, body: string, images: seq<Id>,
                     cms: seq<ArchiveComment>, at: int, k: nat)
    requires ImportPost(db, id, ref, title, body, images, cms, at).Some? && !LeftAlone(db, ref) &&
             CommentRefsRight(db.comments, db.commentRefs)
    requires k < |cms| && StoredShown(db, cms[k].ref) && Last(cms, k) &&
             !AsArchived(db.comments[db.commentRefs[cms[k].ref]], cms, k)
    requires var q := db.comments[db.commentRefs[cms[k].ref]].post;
             q in db.posts && q !in ToldThreads(db, id, ref, title, body, cms)
    ensures var q, r := db.comments[db.commentRefs[cms[k].ref]].post,
                        ImportPost(db, id, ref, title, body, images, cms, at).value;
            q in r.posts && r.posts[q].threadVersion == db.posts[q].threadVersion && ViewOf(r, q) != ViewOf(db, q)
  {
    hide ImportPost, CommentRefsRight, ToldThreads, View, AsArchived, Last;
    var q, r := db.comments[db.commentRefs[cms[k].ref]].post,
                ImportPost(db, id, ref, title, body, images, cms, at).value;
    ImportEnds(db, id, ref, title, body, images, cms, at);
    assert ToldOne(db.posts, db.jobs, r.posts, r.jobs, q, q in ToldThreads(db, id, ref, title, body, cms));
    assert !Kept(db, cms, q);
    UntoldViewChanged(db, id, ref, title, body, images, cms, at, q);
  }

  lemma StoredShownMeans(db: Db, ref: string)
    requires StoredShown(db, ref)
    ensures ref in db.commentRefs && db.commentRefs[ref] in db.comments
  {
  }

  // ---- Whether the index is right ----

  lemma ImportRowIndexed(db: Db, id: Id, ref: string, title: string, body: string, images: seq<Id>, full: bool)
    requires ContentOk(db) && IndexedDb(db, full) && ImportRow(db, id, ref, title, body, images).Some?
    requires ref !in db.postRefs ==> FreshId(db, id)
    requires ref in db.postRefs && db.postRefs[ref] in db.posts ==> Shown(db.posts[db.postRefs[ref]].status)
    ensures IndexedDb(ImportRow(db, id, ref, title, body, images).value, full)
  {
    hide IndexedDb, FreshImages, WithImages;
    var row := ImportRow(db, id, ref, title, body, images).value;
    if ref in db.postRefs {
      var pid := db.postRefs[ref];
      assert row.posts == db.posts[pid := row.posts[pid]] && row.comments == db.comments &&
             row.fts == db.fts[pid := pid];
      assert pid !in db.comments;
      hide ContentOk;
      PutPostIndexed(db, row, pid, row.posts[pid], full);
    } else {
      assert row.posts == db.posts[id := row.posts[id]] && row.comments == db.comments && row.fts == db.fts[id := id];
      hide ContentOk;
      PutPostIndexed(db, row, id, row.posts[id], full);
    }
  }

  lemma ImportCommentIndexed(im: Import, pid: Id, cm: ArchiveComment, full: bool)
    requires IndexedDb(im.db, full) && ImportComment(im, pid, cm).Some? && im.db.posts.Keys !! im.db.comments.Keys
    requires cm.ref !in im.db.commentRefs ==> cm.id !in im.db.posts && cm.id !in im.db.fts
    requires StoredShown(im.db, cm.ref) ==> im.db.comments[im.db.commentRefs[cm.ref]].post == pid
    ensures IndexedDb(ImportComment(im, pid, cm).value.db, full)
  {
    hide IndexedDb, FreshImages, WithImages;
    var db' := ImportComment(im, pid, cm).value.db;
    if cm.ref !in im.db.commentRefs {
      PutCommentIndexedToo(im.db, db', cm.id, db'.comments[cm.id], full);
    } else if Shown(im.db.comments[im.db.commentRefs[cm.ref]].status) {
      var c := im.db.commentRefs[cm.ref];
      PutCommentIndexedToo(im.db, db', c, db'.comments[c], full);
    }
  }

  lemma {:induction false} ImportCommentsIndexed(db0: Db, im: Import, pid: Id, cms: seq<ArchiveComment>,
                                                 all: seq<ArchiveComment>, full: bool)
    requires Importing(im.db, pid) && IndexedDb(im.db, full) && ImportComments(im, pid, cms).Some?
    requires FreshImport(db0, pid, all) && Grown(db0, pid, im.db) && AtHome(im.db, pid, all) &&
             forall cm <- cms :: cm in all
    ensures IndexedDb(ImportComments(im, pid, cms).value.db, full) &&
            AtHome(ImportComments(im, pid, cms).value.db, pid, all)
    decreases |cms|
  {
    hide Importing, ImportComment, FreshId, IndexedDb, AtHome;
    if cms != [] {
      var init, cm := cms[..|cms| - 1], cms[|cms| - 1];
      ImportCommentsIndexed(db0, im, pid, init, all, full);
      assert cm in cms;
      FreshPart(db0, pid, init, all);
      ImportCommentsOk(db0, im, pid, init);
      var before := ImportComments(im, pid, init).value;
      ImportCommentGrows(db0, before, pid, cm);
      HomeOf(before.db, pid, all, cm);
      ImportingFacts(before.db, pid);
      FreshMeans(before.db, cm.id);
      ImportCommentIndexed(before, pid, cm, full);
      ImportCommentHome(before, pid, cm, all);
    }
  }

  lemma FreshPart(db0: Db, pid: Id, init: seq<ArchiveComment>, all: seq<ArchiveComment>)
    requires FreshImport(db0, pid, all) && forall cm <- init :: cm in all
    ensures FreshImport(db0, pid, init)
  {
  }

  lemma FreshMeans(db: Db, id: Id)
    ensures FreshId(db, id) ==> id !in db.posts && id !in db.fts
  {
  }

  lemma HomeOf(db: Db, pid: Id, all: seq<ArchiveComment>, cm: ArchiveComment)
    requires AtHome(db, pid, all) && cm in all
    ensures StoredShown(db, cm.ref) ==> db.comments[db.commentRefs[cm.ref]].post == pid
  {
  }

  lemma ImportingFacts(db: Db, pid: Id)
    requires Importing(db, pid)
    ensures db.posts.Keys !! db.comments.Keys
  {
  }

  lemma PostEditedIndexed(db: Db, p: Id, at: int, full: bool)
    requires IndexedDb(db, full) && PostEdited(db, p, at).Some?
    ensures IndexedDb(PostEdited(db, p, at).value, full)
  {
    hide IndexedDb, ThreadChanged, Schedule;
    IndexedStays(db, Marked(db, p, at), full);
    ThreadChangedIndexed(Marked(db, p, at), p, at, full);
  }

  lemma RecountIndexed(db: Db, pid: Id, full: bool)
    requires IndexedDb(db, full) && pid in db.posts
    ensures IndexedDb(Recount(db, pid), full)
  {
    hide IndexedDb, ShownComments;
    IndexedStays(db, Recount(db, pid), full);
  }

  lemma ImportCommentHome(im: Import, pid: Id, cm: ArchiveComment, all: seq<ArchiveComment>)
    requires ImportComment(im, pid, cm).Some? && AtHome(im.db, pid, all)
    ensures AtHome(ImportComment(im, pid, cm).value.db, pid, all)
  {
    var id := ImportCommentIs(im, pid, cm);
    hide ImportComment;
  }

  lemma HomeIndexed(db: Db, id: Id, ref: string, title: string, body: string, images: seq<Id>, cms: seq<ArchiveComment>,
                    at: int, full: bool)
    requires ContentOk(db) && IndexedDb(db, full) && ImportPost(db, id, ref, title, body, images, cms, at).Some? &&
             !LeftAlone(db, ref)
    requires (ref !in db.postRefs ==> FreshId(db, id)) && FreshImport(db, Target(db, id, ref), cms) &&
             AtHome(db, Target(db, id, ref), cms)
    ensures IndexedDb(ImportPost(db, id, ref, title, body, images, cms, at).value, full)
  {
    hide ContentOk, Importing, ImportRow, ImportComments, PostEdited, ThreadChanged, FreshImport, FreshId, Grown,
      IndexedDb, Schedule, AtHome, Recount;
    var pid := Target(db, id, ref);
    var row := ImportRow(db, id, ref, title, body, images).value;
    ImportRowOk(db, id, ref, title, body, images);
    ImportRowGrows(db, id, ref, title, body, images);
    ImportRowIndexed(db, id, ref, title, body, images, full);
    ImportRowRows(db, id, ref, title, body, images);
    SameArchive(db, row, pid, cms);
    ImportCommentsIndexed(db, Import(row, map[], false), pid, cms, cms, full);
    CommentRefsAre(db);
    CountedIs(db, id, ref, title, body, images, cms);
    var im := ImportComments(Import(row, map[], false), pid, cms).value;
    RecountIndexed(im.db, pid, full);
    var counted, end := Recount(im.db, pid), ImportPost(db, id, ref, title, body, images, cms, at).value;
    if ref !in db.postRefs {
      IndexedIgnoresJobs(counted, end, full);
    } else if db.posts[pid].title != title || db.posts[pid].body != body {
      PostEditedIndexed(counted, pid, at, full);
    } else if im.changed {
      ThreadChangedIndexed(counted, pid, at, full);
    }
  }

  lemma CommentRefsAre(db: Db)
    requires ContentOk(db)
    ensures CommentRefsRight(db.comments, db.commentRefs)
  {
  }

  /** Wherever a comment of the archive is stored, its row is filed under the imported post. */
  lemma FiledUnderTarget(db: Db, id: Id, ref: string, title: string, body: string, images: seq<Id>,
                         cms: seq<ArchiveComment>, at: int, k: nat)
    requires CommentRefsRight(db.comments, db.commentRefs) &&
             ImportPost(db, id, ref, title, body, images, cms, at).Some? && !LeftAlone(db, ref)
    requires k < |cms| && StoredShown(db, cms[k].ref)
    ensures var c, r := db.commentRefs[cms[k].ref], ImportPost(db, id, ref, title, body, images, cms, at).value;
            c in r.comments && c in r.fts && r.fts[c] == Target(db, id, ref) &&
            r.comments[c].post == db.comments[c].post
  {
    ImportEnds(db, id, ref, title, body, images, cms, at);
    ImportRowRows(db, id, ref, title, body, images);
    var row := ImportRow(db, id, ref, title, body, images).value;
    RefsStored(db.comments, db.commentRefs);
    AllBrought(row, Target(db, id, ref), cms);
    assert StoredShown(row, cms[k].ref);
    LastWordStored(row, Target(db, id, ref), cms, k);
    hide ImportRow, ImportComments, ImportPost, CommentRefsRight, ToldThreads, SameRefs, Refs, Tells;
    var c := db.commentRefs[cms[k].ref];
    assert SameButText(db.comments[c], ImportPost(db, id, ref, title, body, images, cms, at).value.comments[c]);
  }

  /** Main result. Take any import that runs on a right index. Each row of the index is under its
      item's own thread afterwards exactly when the comments of the archive that are stored here and
      shown are stored under the post it imports. */
  lemma ImportKeepsIndexIff(db: Db, id: Id, ref: string, title: string, body: string, images: seq<Id>,
                            cms: seq<ArchiveComment>, at: int, full: bool)
    requires ContentOk(db) && IndexedDb(db, full) && ImportPost(db, id, ref, title, body, images, cms, at).Some? &&
             !LeftAlone(db, ref)
    requires (ref !in db.postRefs ==> FreshId(db, id)) && FreshImport(db, Target(db, id, ref), cms)
    ensures IndexedDb(ImportPost(db, id, ref, title, body, images, cms, at).value, full) <==>
            AtHome(db, Target(db, id, ref), cms)
  {
    hide ContentOk, ImportPost, FreshImport, FreshId, CommentRefsRight;
    if AtHome(db, Target(db, id, ref), cms) {
      hide IndexedDb;
      HomeIndexed(db, id, ref, title, body, images, cms, at, full);
    } else {
      CommentRefsAre(db);
      var cm :| cm in cms && StoredShown(db, cm.ref) && db.comments[db.commentRefs[cm.ref]].post != Target(db, id, ref);
      var k :| 0 <= k < |cms| && cms[k] == cm;
      StoredShownMeans(db, cm.ref);
      FiledUnderTarget(db, id, ref, title, body, images, cms, at, k);
      var c, r := db.commentRefs[cm.ref], ImportPost(db, id, ref, title, body, images, cms, at).value;
      assert !CommentIndexed(r.comments, r.fts, c, full);
    }
  }

  /** A row under the wrong thread outlives its comment: once the comment's own thread is purged and
      the other is not, the index finds something that is not there. */
  lemma MisfiledRowOutlivesComment(db: Db, c: Id, before: int)
    requires CommentsHavePosts(db.posts, db.comments) && c in db.comments && c in db.fts && c !in db.posts
    requires db.comments[c].post !in KeptPosts(db.posts, before) && db.fts[c] in KeptPosts(db.posts, before) &&
             db.fts[c] != 0
    ensures var r := PurgeGroup(db, before);
            c in r.fts && c !in r.posts && c !in r.comments && !IndexSound(r.posts, r.comments, r.fts)
  {
    hide PurgeSide, KeepSources, KeptNotes, KeptJobs, KeptLinks;
    var r := PurgeGroup(db, before);
    assert !RowRight(r.posts, r.comments, c, r.fts[c]);
  }
}
