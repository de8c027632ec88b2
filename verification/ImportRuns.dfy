/**
 Two runs, from a group's first day, in which imports do what their conditions exclude: so those
 conditions cannot be left out (internal/cmd/archive.go).
 */
module ImportRuns {
  import opened Types
  import opened Jobs
  import opened Tables
  import opened Content
  import opened Archive
  import opened Versions
  import opened Imports
  import opened Index
  import opened GroupLog
  import opened Digests
  import C = Commands

  function Row(id: Id, ref: string, parentRef: string, body: string): C.ArchiveComment {
    C.ArchiveComment(id, ref, parentRef, body, None)
  }

  function Archived(id: Id, ref: string, cms: seq<C.ArchiveComment>): Cmd {
    ImportPost(id, ref, "t", "", [], cms, 0)
  }

  /** A row as an import brings it. */
  function Fresh(p: Id, t: string, body: string): Comment {
    Comment(p, None, 0, body, Visible, None, 1, false, Some(t))
  }

  /** What a first import of a thread leaves: the post, and these comments under it. */
  ghost predicate Holds(db: Db, p: Id, r: string, comments: Comments, refs: map<string, Id>) {
    && db.posts.Keys == {p} && db.posts[p].title == "t" && db.posts[p].body == "" && db.posts[p].status == Visible
    && db.posts[p].continues.None?
    && db.postRefs == map[r := p] && db.comments == comments && db.commentRefs == refs
    && db.fts.Keys == {p} + comments.Keys
  }

  lemma NewComment(im: C.Import, p: Id, cm: C.ArchiveComment)
    requires cm.ref !in im.db.commentRefs && cm.id !in im.db.comments && cm.image.None? && cm.parentRef !in im.ids
    ensures C.ImportComment(im, p, cm).Some?
    ensures var r := C.ImportComment(im, p, cm).value;
            r.db.comments == im.db.comments[cm.id := Fresh(p, cm.ref, cm.body)] &&
            r.db.commentRefs == im.db.commentRefs[cm.ref := cm.id] &&
            r.db.fts == im.db.fts[cm.id := p] && r.db.posts == im.db.posts && r.db.postRefs == im.db.postRefs &&
            r.ids == im.ids[cm.ref := cm.id]
  {
  }

  /** The first thread, before its comments. */
  lemma FirstRow(start: Db, p: Id, r: string)
    requires Blank(start) && p != 0
    ensures C.ImportRow(start, p, r, "t", "", []).Some?
    ensures Holds(C.ImportRow(start, p, r, "t", "", []).value, p, r, map[], map[])
  {
  }

  lemma ThenDone(start: Db, p: Id, r: string, cms: seq<C.ArchiveComment>, comments: Comments, refs: map<string, Id>)
    requires Blank(start) && p != 0 && r != "" && C.ImportRow(start, p, r, "t", "", []).Some?
    requires var im := C.ImportComments(C.Import(C.ImportRow(start, p, r, "t", "", []).value, map[], false), p, cms);
             im.Some? && Holds(im.value.db, p, r, comments, refs)
    ensures Step(start, Archived(p, r, cms)).Some? && Holds(Apply(start, Archived(p, r, cms)), p, r, comments, refs)
  {
    hide C.ImportRow, C.ImportComments, Schedule, ShownComments;
  }

  lemma FirstImport(start: Db, p: Id, r: string, c: Id, t: string, x: string)
    requires Blank(start) && p != 0 && r != ""
    ensures Step(start, Archived(p, r, [Row(c, t, "", x)])).Some?
    ensures Holds(Apply(start, Archived(p, r, [Row(c, t, "", x)])), p, r, map[c := Fresh(p, t, x)], map[t := c])
  {
    hide C.ImportRow, C.ImportComment, Step;
    var cms := [Row(c, t, "", x)];
    FirstRow(start, p, r);
    var im := C.Import(C.ImportRow(start, p, r, "t", "", []).value, map[], false);
    NewComment(im, p, cms[0]);
    assert cms[..0] == [] && C.ImportComments(im, p, []) == Some(im);
    assert C.ImportComments(im, p, cms) == C.ImportComment(im, p, cms[0]);
    assert map[][c := Fresh(p, t, x)] == map[c := Fresh(p, t, x)] && map[][t := c] == map[t := c];
    ThenDone(start, p, r, cms, map[c := Fresh(p, t, x)], map[t := c]);
  }

  lemma FirstImportOfTwo(start: Db, p: Id, r: string, c: Id, t: string, x: string, d: Id, u: string, y: string)
    requires Blank(start) && p != 0 && r != "" && c != d && t != u && t != "" && u != ""
    ensures var cms := [Row(c, t, "", x), Row(d, u, "", y)];
            Step(start, Archived(p, r, cms)).Some? &&
            Holds(Apply(start, Archived(p, r, cms)), p, r, map[c := Fresh(p, t, x), d := Fresh(p, u, y)], map[t := c, u := d])
  {
    hide C.ImportRow, C.ImportComment, Step;
    var cms := [Row(c, t, "", x), Row(d, u, "", y)];
    FirstRow(start, p, r);
    var im := C.Import(C.ImportRow(start, p, r, "t", "", []).value, map[], false);
    NewComment(im, p, cms[0]);
    var one := C.ImportComment(im, p, cms[0]).value;
    NewComment(one, p, cms[1]);
    assert cms[..1] == [cms[0]] && [cms[0]][..0] == [] && C.ImportComments(im, p, []) == Some(im);
    assert C.ImportComments(im, p, [cms[0]]) == Some(one);
    assert C.ImportComments(im, p, cms) == C.ImportComment(one, p, cms[1]);
    assert map[][c := Fresh(p, t, x)][d := Fresh(p, u, y)] == map[c := Fresh(p, t, x), d := Fresh(p, u, y)];
    assert map[][t := c][u := d] == map[t := c, u := d];
    ThenDone(start, p, r, cms, map[c := Fresh(p, t, x), d := Fresh(p, u, y)], map[t := c, u := d]);
  }

  lemma KnownComments(row: Db, p: Id, cms: seq<C.ArchiveComment>)
    requires forall cm <- cms :: StoredShown(row, cm.ref) && cm.image.None?
    ensures var im := C.ImportComments(C.Import(row, map[], false), p, cms);
            im.Some? && im.value.db.commentRefs == row.commentRefs && im.value.db.posts == row.posts &&
            im.value.db.comments.Keys == row.comments.Keys &&
            forall c <- row.comments :: im.value.db.comments[c].status == row.comments[c].status
    decreases |cms|
  {
  }

  /** An import that brings only comments that are here already succeeds. */
  lemma KnownImport(db: Db, p: Id, r: string, cms: seq<C.ArchiveComment>)
    requires ContentOk(db) && r != "" && (r in db.postRefs || p !in db.posts) && !LeftAlone(db, r)
    requires forall cm <- cms :: StoredShown(db, cm.ref) && cm.image.None?
    ensures C.ImportPost(db, p, r, "t", "", [], cms, 0).Some?
  {
    hide C.ImportRow, C.ImportComments, Schedule, C.WithImages, ContentOk, C.PostEdited, C.ThreadChanged, C.Recount,
      StoredShown;
    RowGoesIn(db, p, r);
    var row := C.ImportRow(db, p, r, "t", "", []).value;
    ImportRowRows(db, p, r, "t", "", []);
    StoredInRow(db, row, cms);
    KnownComments(row, Target(db, p, r), cms);
    var im := C.ImportComments(C.Import(row, map[], false), Target(db, p, r), cms).value;
    CountedLinks(im.db, Target(db, p, r));
    if r in db.postRefs {
      CanBeTold(db, row, C.Recount(im.db, Target(db, p, r)), Target(db, p, r));
    } else {
    }
  }

  lemma KnownStep(db: Db, p: Id, r: string, cms: seq<C.ArchiveComment>)
    requires ContentOk(db) && r != "" && (r in db.postRefs || p !in db.posts) && !LeftAlone(db, r)
    requires forall cm <- cms :: StoredShown(db, cm.ref) && cm.image.None?
    ensures Step(db, Archived(p, r, cms)).Some?
  {
    hide C.ImportPost, ContentOk, StoredShown, LeftAlone;
    KnownImport(db, p, r, cms);
  }

  lemma StoredInRow(db: Db, row: Db, cms: seq<C.ArchiveComment>)
    requires row.comments == db.comments && row.commentRefs == db.commentRefs &&
             forall cm <- cms :: StoredShown(db, cm.ref)
    ensures forall cm <- cms :: StoredShown(row, cm.ref)
  {
  }

  lemma CountedLinks(db: Db, p: Id)
    requires p in db.posts
    ensures C.Recount(db, p).posts.Keys == db.posts.Keys &&
            forall q <- db.posts :: C.Recount(db, p).posts[q].continues == db.posts[q].continues
  {
  }

  lemma RowGoesIn(db: Db, p: Id, r: string)
    requires ContentOk(db) && (r in db.postRefs || p !in db.posts)
    ensures C.ImportRow(db, p, r, "t", "", []).Some?
  {
    if r in db.postRefs { assert PostRefFine(db.posts, db.postRefs, r); }
  }

  /** Telling a post that is there, and was before, does not fail. */
  lemma CanBeTold(db: Db, row: Db, put: Db, p: Id)
    requires ContentOk(db) && p in put.posts && put.posts.Keys == row.posts.Keys == db.posts.Keys + {p}
    requires forall q <- row.posts :: put.posts[q].continues == row.posts[q].continues
    requires p in db.posts ==> row.posts[p].continues == db.posts[p].continues
    ensures p in db.posts ==> C.ThreadChanged(put, p, 0).Some? && C.PostEdited(put, p, 0).Some?
  {
    if p in db.posts { assert UpdateFine(db.posts, p); }
  }

  lemma StateOf(start: Db, a: Cmd, b: Cmd)
    ensures State(start, [a]) == Apply(start, a) && State(start, [a, b]) == Apply(Apply(start, a), b)
    ensures [a, b][..0] == [] && [a, b][..1] == [a] && [a, b][..2] == [a, b]
  {
  }

  lemma FreshTwo(start: Db, a: Cmd, b: Cmd)
    requires Usable(start, a) && Usable(Apply(start, a), b)
    ensures FreshIds(start, [a, b])
  {
  }

  lemma FirstUsable(start: Db, p: Id, r: string, cms: seq<C.ArchiveComment>)
    requires Blank(start) && p != 0 && forall cm <- cms :: cm.id != 0 && cm.id != p
    ensures Usable(start, Archived(p, r, cms))
  {
  }

  /** An import of comments that are all here brings no ids, but perhaps its own. */
  lemma KnownUsable(db: Db, p: Id, r: string, cms: seq<C.ArchiveComment>)
    requires (r in db.postRefs || FreshId(db, p)) && forall cm <- cms :: cm.ref in db.commentRefs
    ensures Usable(db, Archived(p, r, cms))
  {
  }

  lemma FirstIsGood(start: Db, c: Cmd)
    requires Blank(start) && Usable(start, c) && c.ImportPost?
    ensures Good(Apply(start, c), true)
  {
    hide Apply, Usable, ContentOk, IndexedDb;
    BlankGood(start);
    BlankHome(start, c);
    StepGood(start, c, true);
  }

  lemma BlankHome(start: Db, c: Cmd)
    requires Blank(start) && c.ImportPost?
    ensures StaysHome(start, c)
  {
  }

  // ---- A comment hung elsewhere ----

  /** Two comments, and then the same two with the second a reply to the first. */
  function Rehung(p: Id, r: string, c: Id, t: string, x: string, d: Id, u: string, y: string, p': Id, c': Id,
                  d': Id): seq<Cmd> {
    [Archived(p, r, [Row(c, t, "", x), Row(d, u, "", y)]), Archived(p', r, [Row(c', t, "", x), Row(d', u, t, y)])]
  }

  /** From a group's first day: every id is new, every import stays home and succeeds, and still the
      thread reads differently after the second import at the version it had before. */
  lemma RehungReplyTellsNobody(start: Db, p: Id, r: string, c: Id, t: string, x: string, d: Id, u: string, y: string,
                               p': Id, c': Id, d': Id)
    requires Blank(start) && p != 0 && c != 0 && d != 0 && c != d && c != p && d != p && r != "" && t != "" &&
             u != "" && t != u
    ensures var log := Rehung(p, r, c, t, x, d, u, y, p', c', d');
            FreshIds(start, log) && p in State(start, log[..1]).posts && p in State(start, log).posts &&
            State(start, log).posts[p].threadVersion == State(start, log[..1]).posts[p].threadVersion &&
            ViewOf(State(start, log), p) != ViewOf(State(start, log[..1]), p)
  {
    hide Step, ViewOf, ContentOk, Apply, Usable, StoredShown;
    var log := Rehung(p, r, c, t, x, d, u, y, p', c', d');
    StateOf(start, log[0], log[1]);
    FirstImportOfTwo(start, p, r, c, t, x, d, u, y);
    var s := Apply(start, log[0]);
    FirstUsable(start, p, r, log[0].cms);
    FirstIsGood(start, log[0]);
    BothShown(s, p, r, c, t, x, d, u, y);
    KnownUsable(s, p', r, log[1].cms);
    FreshTwo(start, log[0], log[1]);
    KnownStep(s, p', r, log[1].cms);
    CommentRefsAre(s);
    SecondIsUntold(s, p, r, c, t, x, d, u, y, p', log[1].cms);
  }

  lemma BothShown(s: Db, p: Id, r: string, c: Id, t: string, x: string, d: Id, u: string, y: string)
    requires Holds(s, p, r, map[c := Fresh(p, t, x), d := Fresh(p, u, y)], map[t := c, u := d]) && c != d && t != u
    ensures StoredShown(s, t) && StoredShown(s, u) && !LeftAlone(s, r) && t in s.commentRefs && u in s.commentRefs
  {
  }

  lemma NoNewsNobodyTold(db: Db, p: Id, r: string, cms: seq<C.ArchiveComment>)
    requires r in db.postRefs && db.postRefs[r] in db.posts && db.posts[db.postRefs[r]].title == "t" &&
             db.posts[db.postRefs[r]].body == ""
    requires forall cm <- cms :: StoredShown(db, cm.ref) && db.comments[db.commentRefs[cm.ref]].body == cm.body
    ensures ToldThreads(db, p, r, "t", "", cms) == {}
  {
  }

  lemma SecondIsReply(cms: seq<C.ArchiveComment>, c: Comment)
    requires |cms| == 2 && cms[1].parentRef == cms[0].ref && c.parent.None?
    ensures Last(cms, 1) && !AsArchived(c, cms, 1)
  {
  }

  lemma SecondIsUntold(s: Db, p: Id, r: string, c: Id, t: string, x: string, d: Id, u: string, y: string, p': Id,
                       cms: seq<C.ArchiveComment>)
    requires CommentRefsRight(s.comments, s.commentRefs)
    requires Holds(s, p, r, map[c := Fresh(p, t, x), d := Fresh(p, u, y)], map[t := c, u := d]) && c != d && t != u
    requires |cms| == 2 && cms[0].ref == t && cms[0].body == x && cms[1].ref == u && cms[1].body == y &&
             cms[1].parentRef == t
    requires Step(s, Archived(p', r, cms)).Some?
    ensures var after := Apply(s, Archived(p', r, cms));
            p in after.posts && after.posts[p].threadVersion == s.posts[p].threadVersion &&
            ViewOf(after, p) != ViewOf(s, p)
  {
    hide C.ImportPost, ViewOf, CommentRefsRight, ToldThreads, AsArchived, Last, BringsText, Refs, LeftAlone,
      StoredShown;
    BothShown(s, p, r, c, t, x, d, u, y);
    NoNewsNobodyTold(s, p', r, cms);
    SecondIsReply(cms, s.comments[d]);
    UntoldReader(s, p', r, "t", "", [], cms, 0, 1);
  }

  // ---- A comment under two threads ----

  /** The same comment in the archives of two threads; then the first is removed and purged. */
  function Twice(p: Id, r: string, q: Id, s: string, c: Id, t: string, x: string, d: Id, y: string): seq<Cmd> {
    [Archived(p, r, [Row(c, t, "", x)]), Archived(q, s, [Row(d, t, "", y)]),
     SoftDelete(Item(APost, p), true, 0), PurgeGroup(MOD_REMOVE_KEEP + 1)]
  }

  /** What the second import does: the first thread is changed and not told, and its comment's row
      of the index is filed under the second. */
  lemma SecondImportMisfiles(one: Db, p: Id, r: string, q: Id, s: string, c: Id, t: string, x: string, d: Id, y: string)
    requires Good(one, true) && Holds(one, p, r, map[c := Fresh(p, t, x)], map[t := c]) && q != 0 && q != p && q != c &&
             r != s && s != ""
    ensures var e := Archived(q, s, [Row(d, t, "", y)]);
            Usable(one, e) && Step(one, e).Some? &&
            var two := Apply(one, e);
            ContentOk(two) && !Good(two, false) && two.posts.Keys == {p, q} && two.posts[p].status == Visible &&
            two.posts[q].status == Visible &&
            c in two.comments && two.comments[c].post == p && c in two.fts && two.fts[c] == q
    ensures var e := Archived(q, s, [Row(d, t, "", y)]); var two := Apply(one, e);
            x != y ==> p in two.posts && two.posts[p].threadVersion == one.posts[p].threadVersion && ViewOf(two, p) != ViewOf(one, p)
  {
    hide Step, ViewOf, ContentOk, IndexedDb;
    var e := Archived(q, s, [Row(d, t, "", y)]);
    var cms := e.cms;
    assert StoredShown(one, t) && Usable(one, e);
    KnownStep(one, q, s, cms);
    CommentRefsAre(one);
    GoodEither(one);
    ImportStep(one, e, false);
    assert !AtHome(one, q, cms) by { assert cms[0] in cms; }
    SecondEnds(one, q, s, cms, p, x, y);
    FiledUnderTargetHere(one, q, s, cms);
  }

  lemma FiledUnderTargetHere(one: Db, q: Id, s: string, cms: seq<C.ArchiveComment>)
    requires CommentRefsRight(one.comments, one.commentRefs) && Step(one, Archived(q, s, cms)).Some? &&
             s !in one.postRefs
    requires |cms| > 0 && StoredShown(one, cms[0].ref)
    ensures var c, two := one.commentRefs[cms[0].ref], Apply(one, Archived(q, s, cms));
            c in two.comments && two.comments[c].post == one.comments[c].post && c in two.fts && two.fts[c] == q
  {
    hide C.ImportPost, CommentRefsRight;
    FiledUnderTarget(one, q, s, "t", "", [], cms, 0, 0);
  }

  lemma SecondEnds(one: Db, q: Id, s: string, cms: seq<C.ArchiveComment>, p: Id, x: string, y: string)
    requires CommentRefsRight(one.comments, one.commentRefs) && Step(one, Archived(q, s, cms)).Some? &&
             s !in one.postRefs
    requires one.posts.Keys == {p} && p != q && one.posts[p].status == Visible
    requires |cms| == 1 && StoredShown(one, cms[0].ref) && cms[0].body == y
    requires one.comments[one.commentRefs[cms[0].ref]].body == x && one.comments[one.commentRefs[cms[0].ref]].post == p
    ensures var two := Apply(one, Archived(q, s, cms));
            two.posts.Keys == {p, q} && two.posts[p].status == Visible && two.posts[q].status == Visible
    ensures var two := Apply(one, Archived(q, s, cms));
            x != y ==> two.posts[p].threadVersion == one.posts[p].threadVersion && ViewOf(two, p) != ViewOf(one, p)
  {
    hide C.ImportPost, ViewOf, CommentRefsRight, C.ImportRow, C.ImportComments, Tells, BringsNews, Threads;
    ImportEnds(one, q, s, "t", "", [], cms, 0);
    if x != y {
      NoThreads(one.posts, q);
      UntoldReader(one, q, s, "t", "", [], cms, 0, 0);
    }
  }

  /** From a group's first day again, with every id new: after the second import thread p reads
      differently at the version it had; and once p has been purged, the index lists its comment. */
  lemma OneCommentInTwoArchives(start: Db, p: Id, r: string, q: Id, s: string, c: Id, t: string, x: string, d: Id,
                                y: string)
    requires Blank(start) && p != 0 && q != 0 && c != 0 && p != q && c != p && c != q && r != "" && s != "" && r != s &&
             x != y
    ensures var log := Twice(p, r, q, s, c, t, x, d, y);
            FreshIds(start, log) &&
            var one, two, end := State(start, log[..1]), State(start, log[..2]), State(start, log);
            p in one.posts && p in two.posts && two.posts[p].threadVersion == one.posts[p].threadVersion &&
            ViewOf(two, p) != ViewOf(one, p) &&
            c in end.fts && c !in end.comments && c !in end.posts && !ContentOk(end) && Sound(end)
  {
    hide Step, ViewOf, ContentOk, Sound, Apply, Usable, Holds, State, IndexedDb;
    var log := Twice(p, r, q, s, c, t, x, d, y);
    FourStates(start, log);
    FirstImport(start, p, r, c, t, x);
    var one := Apply(start, log[0]);
    FirstUsable(start, p, r, log[0].cms);
    FirstIsGood(start, log[0]);
    SecondImportMisfiles(one, p, r, q, s, c, t, x, d, y);
    HasPost(one, p, r, map[c := Fresh(p, t, x)], map[t := c]);
    ThenPurged(Apply(one, log[1]), p, q, c);
    FreshFour(start, log);
    EveryStateIsSound(start, log);
  }

  lemma HasPost(db: Db, p: Id, r: string, comments: Comments, refs: map<string, Id>)
    requires Holds(db, p, r, comments, refs)
    ensures p in db.posts
  {
  }

  lemma FreshFour(start: Db, log: seq<Cmd>)
    requires |log| == 4 && Usable(start, log[0]) && Usable(Apply(start, log[0]), log[1]) && log[2].SoftDelete? &&
             log[3].PurgeGroup?
    ensures FreshIds(start, log)
  {
    hide Apply, Usable, State;
    FourStates(start, log);
    assert State(start, []) == start by { BlankState(start); }
    forall k | 0 <= k < |log| ensures Usable(State(start, log[..k]), log[k]) {
      if k >= 2 { AlwaysUsable(State(start, log[..k]), log[k]); }
    }
  }

  lemma BlankState(start: Db)
    ensures State(start, []) == start
  {
  }

  lemma AlwaysUsable(db: Db, c: Cmd)
    requires c.SoftDelete? || c.PurgeGroup?
    ensures Usable(db, c)
  {
  }

  lemma FourStates(start: Db, log: seq<Cmd>)
    requires |log| == 4
    ensures log[..0] == [] && log[..4] == log && State(start, log[..1]) == Apply(start, log[0]) &&
            State(start, log[..2]) == Apply(Apply(start, log[0]), log[1])
    ensures State(start, log) == Apply(Apply(State(start, log[..2]), log[2]), log[3])
  {
    hide Apply;
    assert log[..1][..0] == [] && log[..2][..1] == log[..1] && log[..3][..2] == log[..2] &&
           log[..3] == log[..|log| - 1];
  }

  lemma ThenPurged(two: Db, p: Id, q: Id, c: Id)
    requires ContentOk(two) && two.posts.Keys == {p, q} && p != q && two.posts[p].status == Visible &&
             two.posts[q].status == Visible
    requires c in two.comments && two.comments[c].post == p && c in two.fts && two.fts[c] == q
    ensures var end := Apply(Apply(two, SoftDelete(Item(APost, p), true, 0)), PurgeGroup(MOD_REMOVE_KEEP + 1));
            c in end.fts && c !in end.comments && c !in end.posts && !ContentOk(end)
  {
    hide C.SoftDelete, ContentOk, C.PurgeGroup;
    DeletedIs(two, p, q, c);
    var three := Apply(two, SoftDelete(Item(APost, p), true, 0));
    MisfiledRowOutlivesComment(three, c, MOD_REMOVE_KEEP + 1);
    NotOk(C.PurgeGroup(three, MOD_REMOVE_KEEP + 1));
  }

  lemma NotOk(db: Db)
    requires !IndexSound(db.posts, db.comments, db.fts)
    ensures !ContentOk(db)
  {
  }

  lemma DeletedIs(two: Db, p: Id, q: Id, c: Id)
    requires ContentOk(two) && two.posts.Keys == {p, q} && p != q && two.posts[p].status == Visible &&
             two.posts[q].status == Visible
    requires c in two.comments && two.comments[c].post == p && c in two.fts && two.fts[c] == q
    ensures var three := Apply(two, SoftDelete(Item(APost, p), true, 0));
            CommentsHavePosts(three.posts, three.comments) && c in three.comments && three.comments[c].post == p &&
            c in three.fts && three.fts[c] == q &&
            c !in three.posts && q != 0 &&
            p !in C.KeptPosts(three.posts, MOD_REMOVE_KEEP + 1) && q in C.KeptPosts(three.posts, MOD_REMOVE_KEEP + 1)
  {
    hide C.ThreadChanged, SameContent, Afterwards, C.SoftDelete, Restatus, C.KeptPosts, ContentOk, Reads;
    var item := Item(APost, p);
    ItemFacts(two, item);
    TwoFacts(two, p, q, c);
    SoftDeleteOk(two, item, true, 0);
    SoftDeleteIs(two, item, true, 0);
    AfterwardsSame(two, item, Removed, Some(MOD_REMOVE_KEEP), 0);
    var put, three := Restatus(two, item, Removed, Some(MOD_REMOVE_KEEP)), Apply(two, SoftDelete(item, true, 0));
    RemovedRow(two, p, q, c);
    SameContentPurge(put, three, p);
    SameContentPurge(put, three, q);
    hide Apply;
    KeptIff(three.posts, p);
    KeptIff(three.posts, q);
  }

  lemma TwoFacts(two: Db, p: Id, q: Id, c: Id)
    requires ContentOk(two) && q in two.posts && two.posts[q].status == Visible && c in two.comments
    ensures two.posts[q].purgeAfter.None? && CommentsHavePosts(two.posts, two.comments) && q != 0 && c !in two.posts
  {
  }

  lemma KeptIff(posts: Posts, p: Id)
    requires p in posts
    ensures p in C.KeptPosts(posts, MOD_REMOVE_KEEP + 1) <==>
            posts[p].purgeAfter.None? || posts[p].purgeAfter.value > MOD_REMOVE_KEEP
  {
  }

  lemma RemovedRow(two: Db, p: Id, q: Id, c: Id)
    requires p in two.posts && q in two.posts && p != q && c in two.fts && c != p
    ensures var put := Restatus(two, Item(APost, p), Removed, Some(MOD_REMOVE_KEEP));
            put.posts.Keys == two.posts.Keys && put.posts[p].purgeAfter == Some(MOD_REMOVE_KEEP) &&
            put.posts[q] == two.posts[q] &&
            put.comments == two.comments && c in put.fts && put.fts[c] == two.fts[c]
  {
  }

  lemma SameContentPurge(a: Db, b: Db, p: Id)
    requires SameContent(a, b) && p in a.posts
    ensures p in b.posts && b.posts[p].purgeAfter == a.posts[p].purgeAfter && b.comments == a.comments &&
            b.fts == a.fts && b.posts.Keys == a.posts.Keys
  {
  }
}
