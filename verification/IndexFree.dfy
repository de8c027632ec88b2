/**
 The search index feeds nothing else: whatever it holds, a command succeeds or fails alike and
 leaves the other tables alike. So all of the content invariant but its clause on the index holds in
 every state of every run, with nothing asked of imports.
 */
module IndexFree {
  import opened Types
  import opened Jobs
  import opened Tables
  import opened Content
  import opened Archive
  import C = Commands

  /** The same tables, apart from the index. */
  ghost predicate Alike(a: Db, b: Db) {
    && b.group == a.group && b.holdFirstPost == a.holdFirstPost && b.voteThreshold == a.voteThreshold
    && b.members == a.members
    && b.posts == a.posts && b.comments == a.comments && b.jobs == a.jobs && b.notes == a.notes
    && b.sources == a.sources
    && b.links == a.links && b.postRefs == a.postRefs && b.commentRefs == a.commentRefs && b.side == a.side
  }

  ghost predicate Agree(a: Option<Db>, b: Option<Db>) {
    (a.Some? <==> b.Some?) && (a.Some? ==> Alike(a.value, b.value))
  }

  // ---- Parts of commands ----

  lemma ThreadChangedAlike(a: Db, b: Db, p: Id, at: int)
    requires Alike(a, b)
    ensures Agree(C.ThreadChanged(a, p, at), C.ThreadChanged(b, p, at))
  {
    if p in a.posts {
      TouchAlike(a, b, p, at);
      if a.posts[p].continues.Some? && a.posts[p].continues.value in a.posts {
        TouchAlike(C.Touch(a, p, at), C.Touch(b, p, at), a.posts[p].continues.value, at);
      }
    }
  }

  lemma TouchAlike(a: Db, b: Db, p: Id, at: int)
    requires Alike(a, b) && p in a.posts
    ensures Alike(C.Touch(a, p, at), C.Touch(b, p, at)) && C.Touch(a, p, at).posts.Keys == a.posts.Keys
  {
    hide C.RequeueNotes, C.MarkStale, C.CitingNotes, C.RequeueDigest;
    CitingAlike(a, b, p, a.posts[p].threadVersion + 1, at);
    var ns, v := C.CitingNotes(a, p), a.posts[p].threadVersion + 1;
    var x := a.(posts := a.posts[p := a.posts[p].(threadVersion := v)], jobs := C.RequeueDigest(a, p, v, at),
                notes := C.MarkStale(a.notes, ns));
    var y := b.(posts := b.posts[p := b.posts[p].(threadVersion := v)], jobs := C.RequeueDigest(b, p, v, at),
                notes := C.MarkStale(b.notes, ns));
    RequeueAlike(x, y, ns, at);
  }

  lemma CitingAlike(a: Db, b: Db, p: Id, v: nat, at: int)
    requires Alike(a, b) && p in a.posts
    ensures p in b.posts && C.CitingNotes(a, p) == C.CitingNotes(b, p) &&
            C.RequeueDigest(a, p, v, at) == C.RequeueDigest(b, p, v, at)
  {
  }

  lemma RequeueAlike(a: Db, b: Db, ns: set<Id>, at: int)
    requires Alike(a, b)
    ensures C.RequeueNotes(a, ns, at) == C.RequeueNotes(b, ns, at)
  {
  }

  lemma PostEditedAlike(a: Db, b: Db, p: Id, at: int)
    requires Alike(a, b)
    ensures Agree(C.PostEdited(a, p, at), C.PostEdited(b, p, at))
  {
    hide C.ThreadChanged;
    if p in a.posts { ThreadChangedAlike(C.Marked(a, p, at), C.Marked(b, p, at), p, at); }
  }

  lemma SaveRevisionAlike(a: Db, b: Db, item: Item, at: int)
    requires Alike(a, b)
    ensures Agree(C.SaveRevision(a, item, at), C.SaveRevision(b, item, at))
  {
    hide C.Revisions;
    var n := |C.Revisions(a.side, item)| + 1;
    if (item, n) !in a.side.revisions {
      var side := a.side.(revisions := a.side.revisions[(item, n) := at + REVISION_KEEP]);
      assert C.SaveRevision(a, item, at) == Some(a.(side := side)) &&
             C.SaveRevision(b, item, at) == Some(b.(side := side));
    }
  }

  lemma ItemAlike(a: Db, b: Db, item: Item)
    requires Alike(a, b)
    ensures C.Exists(a, item) <==> C.Exists(b, item)
    ensures C.Exists(a, item) ==>
              C.StatusOf(a, item) == C.StatusOf(b, item) && C.ThreadOf(a, item) == C.ThreadOf(b, item) &&
              C.AuthorOf(a, item) == C.AuthorOf(b, item) &&
              C.Cleared(a, item) == C.Cleared(b, item) && C.VersionOf(a, item) == C.VersionOf(b, item) &&
              C.PurgeOf(a, item) == C.PurgeOf(b, item)
  {
  }

  lemma SetStatusAlike(a: Db, b: Db, item: Item, to: Status, purge: Option<int>, f: map<Id, Id>, g: map<Id, Id>)
    requires Alike(a, b) && C.Exists(a, item)
    ensures C.Exists(b, item) && Alike(C.SetStatus(a, item, to, purge).(fts := f), C.SetStatus(b, item, to, purge).(fts := g))
    ensures C.SetStatus(a, item, to, purge).posts.Keys == a.posts.Keys
  {
    if item.kind == APost {
    } else {
    }
  }

  lemma SetClearedAlike(a: Db, b: Db, item: Item)
    requires Alike(a, b) && C.Exists(a, item)
    ensures C.Exists(b, item) && Alike(C.SetCleared(a, item), C.SetCleared(b, item))
    ensures C.Exists(C.SetCleared(a, item), item) && C.Exists(C.SetCleared(b, item), item)
  {
    if item.kind == APost {
    } else {
    }
  }

  lemma AddCountAlike(a: Db, b: Db, p: Id, n: int)
    requires Alike(a, b) && p in a.posts
    ensures p in b.posts && Alike(C.AddCount(a, p, n), C.AddCount(b, p, n))
  {
  }

  /** An item's status and index row, before the counter moves and its thread is told. */
  function Filed(db: Db, item: Item, to: Status, purge: Option<int>): Db
    requires C.Exists(db, item)
  {
    C.SetStatus(db, item, to, purge).(fts := if Shown(to) then db.fts[item.id := C.ThreadOf(db, item)] else db.fts - {item.id})
  }

  lemma FiledAlike(a: Db, b: Db, item: Item, to: Status, purge: Option<int>)
    requires Alike(a, b) && C.Exists(a, item)
    ensures C.Exists(b, item) && Alike(Filed(a, item, to, purge), Filed(b, item, to, purge)) &&
            Filed(a, item, to, purge).posts.Keys == a.posts.Keys
  {
    ItemAlike(a, b, item);
    hide C.SetStatus, Alike;
    SetStatusAlike(a, b, item, to, purge, Filed(a, item, to, purge).fts, Filed(b, item, to, purge).fts);
  }

  lemma ChangeStatusAlike(a: Db, b: Db, item: Item, to: Status, at: int)
    requires Alike(a, b) && C.Exists(a, item)
    ensures C.Exists(b, item) && Agree(C.ChangeStatus(a, item, to, at), C.ChangeStatus(b, item, to, at))
  {
    ItemAlike(a, b, item);
    FiledAlike(a, b, item, to, C.PurgeOf(a, item));
    var fa, fb := Filed(a, item, to, C.PurgeOf(a, item)), Filed(b, item, to, C.PurgeOf(b, item));
    var post := C.ThreadOf(a, item);
    assert fa.posts.Keys == fb.posts.Keys;
    hide C.ThreadChanged, C.SetStatus, C.AddCount, C.StatusOf, C.ThreadOf, C.PurgeOf, C.Exists, Alike;
    if C.StatusOf(a, item) != to {
      if item.kind == AComment && Shown(C.StatusOf(a, item)) != Shown(to) && post in fa.posts {
        var n := if Shown(to) then 1 else -1;
        AddCountAlike(fa, fb, post, n);
        ThreadChangedAlike(C.AddCount(fa, post, n), C.AddCount(fb, post, n), post, at);
      } else {
        ThreadChangedAlike(fa, fb, post, at);
      }
    }
  }

  lemma ApplyVerdictAlike(a: Db, b: Db, item: Item, verdict: C.Verdict, at: int)
    requires Alike(a, b)
    ensures Agree(C.ApplyVerdict(a, item, verdict, at), C.ApplyVerdict(b, item, verdict, at))
  {
    hide C.ChangeStatus;
    if C.Exists(a, item) {
      ChangeStatusAlike(a, b, item, AutoHidden, at);
      ChangeStatusAlike(a, b, item, Flagged, at);
    }
  }

  /** A note put in place, and queued for the version it then has. */
  function NotePut(db: Db, n: Id, note: NoteRow, sources: seq<NoteSource>, at: int): Db {
    var linked := db.(notes := db.notes[n := note], sources := sources);
    linked.(jobs := Schedule(db.jobs, JobKey(Note, n), NoteVersion(linked, n), at, at))
  }

  lemma NotePutAlike(a: Db, b: Db, n: Id, note: NoteRow, sources: seq<NoteSource>, at: int)
    requires Alike(a, b)
    ensures Alike(NotePut(a, n, note, sources, at), NotePut(b, n, note, sources, at))
  {
  }

  lemma LinkNoteAlike(a: Db, b: Db, group: Id, host: Id, other: Id, id: Id, ext: nat, at: int)
    requires Alike(a, b)
    ensures Agree(C.LinkNote(a, group, host, other, id, ext, at), C.LinkNote(b, group, host, other, id, ext, at))
  {
    hide C.FindNote, Schedule, NoteVersion;
    var found := C.FindNote(a.notes, a.sources, group, host, other);
    if found.Some? {
      if found.value in a.notes {
        var note := a.notes[found.value];
        NotePutAlike(a, b, found.value,
                     note.(active := true, removedBy := None, stale := true,
                           ext := if note.ext < ext then ext else note.ext), a.sources, at);
      }
    } else {
      NotePutAlike(a, b, id, NoteRow(host, "", true, true, None, ext), a.sources + [NoteSource(id, group, other)], at);
    }
  }

  lemma AddLinkAlike(a: Db, b: Db, x: Id, y: Id, auto: bool, noteA: Id, noteB: Id, at: int)
    requires Alike(a, b)
    ensures Agree(C.AddLink(a, x, y, auto, noteA, noteB, at), C.AddLink(b, x, y, auto, noteA, noteB, at))
  {
    hide C.LinkNote;
    var key := if x < y then (x, y) else (y, x);
    var a', b' := a.(links := a.links[key := true]), b.(links := b.links[key := true]);
    LinkNoteAlike(a', b', a.group, x, y, noteA, 0, at);
    if C.LinkNote(a', a.group, x, y, noteA, 0, at).Some? {
      LinkNoteAlike(C.LinkNote(a', a.group, x, y, noteA, 0, at).value,
                    C.LinkNote(b', a.group, x, y, noteA, 0, at).value, a.group, y, x, noteB, 0, at);
    }
  }

  lemma {:induction false} AddLinksAlike(a: Db, b: Db, post: Id, links: seq<C.CheckLink>, at: int)
    requires Alike(a, b)
    ensures Agree(C.AddLinks(a, post, links, at), C.AddLinks(b, post, links, at))
    decreases |links|
  {
    hide C.AddLink;
    if links != [] {
      var init, l := links[..|links| - 1], links[|links| - 1];
      AddLinksAlike(a, b, post, init, at);
      if C.AddLinks(a, post, init, at).Some? {
        AddLinkAlike(C.AddLinks(a, post, init, at).value, C.AddLinks(b, post, init, at).value, post, l.other, true,
                     l.noteHere, l.noteThere, at);
      }
    }
  }

  // ---- Imports ----

  ghost predicate ImportsAgree(a: Option<C.Import>, b: Option<C.Import>) {
    (a.Some? <==> b.Some?) &&
    (a.Some? ==> Alike(a.value.db, b.value.db) && a.value.ids == b.value.ids && a.value.changed == b.value.changed)
  }

  lemma ImportCommentAlike(a: C.Import, b: C.Import, pid: Id, cm: C.ArchiveComment)
    requires Alike(a.db, b.db) && a.ids == b.ids && a.changed == b.changed
    ensures ImportsAgree(C.ImportComment(a, pid, cm), C.ImportComment(b, pid, cm))
  {
    hide C.WithImages;
  }

  lemma {:induction false} ImportCommentsAlike(a: C.Import, b: C.Import, pid: Id, cms: seq<C.ArchiveComment>)
    requires Alike(a.db, b.db) && a.ids == b.ids && a.changed == b.changed
    ensures ImportsAgree(C.ImportComments(a, pid, cms), C.ImportComments(b, pid, cms))
    decreases |cms|
  {
    hide C.ImportComment;
    if cms != [] {
      ImportCommentsAlike(a, b, pid, cms[..|cms| - 1]);
      if C.ImportComments(a, pid, cms[..|cms| - 1]).Some? {
        ImportCommentAlike(C.ImportComments(a, pid, cms[..|cms| - 1]).value,
                           C.ImportComments(b, pid, cms[..|cms| - 1]).value, pid, cms[|cms| - 1]);
      }
    }
  }

  lemma ImportRowAlike(a: Db, b: Db, id: Id, ref: string, title: string, body: string, images: seq<Id>)
    requires Alike(a, b)
    ensures Agree(C.ImportRow(a, id, ref, title, body, images), C.ImportRow(b, id, ref, title, body, images))
  {
  }

  lemma RecountAlike(a: Db, b: Db, p: Id)
    requires Alike(a, b) && p in a.posts
    ensures p in b.posts && Alike(C.Recount(a, p), C.Recount(b, p))
  {
  }

  lemma ImportPostAlike(a: Db, b: Db, id: Id, ref: string, title: string, body: string, images: seq<Id>,
                        cms: seq<C.ArchiveComment>, at: int)
    requires Alike(a, b)
    ensures Agree(C.ImportPost(a, id, ref, title, body, images, cms, at),
                  C.ImportPost(b, id, ref, title, body, images, cms, at))
  {
    hide C.ImportRow, C.ImportComments, C.PostEdited, C.ThreadChanged, C.Recount, Schedule;
    var pid := if ref in a.postRefs then a.postRefs[ref] else id;
    ImportRowAlike(a, b, id, ref, title, body, images);
    if C.ImportRow(a, id, ref, title, body, images).Some? {
      var ra, rb := C.ImportRow(a, id, ref, title, body, images).value, C.ImportRow(b, id, ref, title, body, images).value;
      ImportCommentsAlike(C.Import(ra, map[], false), C.Import(rb, map[], false), pid, cms);
      var ia := C.ImportComments(C.Import(ra, map[], false), pid, cms);
      var ib := C.ImportComments(C.Import(rb, map[], false), pid, cms);
      if ia.Some? && pid in ia.value.db.posts {
        RecountAlike(ia.value.db, ib.value.db, pid);
        PostEditedAlike(C.Recount(ia.value.db, pid), C.Recount(ib.value.db, pid), pid, at);
        ThreadChangedAlike(C.Recount(ia.value.db, pid), C.Recount(ib.value.db, pid), pid, at);
      }
    }
  }

  // ---- Each command ----

  lemma CreatePostAlike(a: Db, b: Db, id: Id, user: Id, title: string, body: string, images: seq<Id>, at: int)
    requires Alike(a, b)
    ensures Agree(C.CreatePost(a, id, user, title, body, images, at),
                  C.CreatePost(b, id, user, title, body, images, at))
  {
  }

  lemma EditPostAlike(a: Db, b: Db, id: Id, title: string, body: string, at: int)
    requires Alike(a, b)
    ensures Agree(C.EditPost(a, id, title, body, at), C.EditPost(b, id, title, body, at))
  {
    hide C.PostEdited, C.SaveRevision, C.Retitled, Alike;
    SaveRevisionAlike(a, b, Item(APost, id), at);
    if C.SaveRevision(a, Item(APost, id), at).Some? {
      var sa, sb := C.SaveRevision(a, Item(APost, id), at).value, C.SaveRevision(b, Item(APost, id), at).value;
      SamePosts(a, b);
      SamePosts(sa, sb);
      if id in sa.posts {
        RetitledAlike(sa, sb, id, title, body);
        PostEditedAlike(C.Retitled(sa, id, title, body), C.Retitled(sb, id, title, body), id, at);
        if C.PostEdited(C.Retitled(sa, id, title, body), id, at).Some? {
          RelistedAlike(C.PostEdited(C.Retitled(sa, id, title, body), id, at).value,
                        C.PostEdited(C.Retitled(sb, id, title, body), id, at).value, id);
        }
      }
    } else {
      SamePosts(a, b);
    }
  }

  lemma SamePosts(a: Db, b: Db)
    requires Alike(a, b)
    ensures a.posts == b.posts
  {
  }

  lemma RetitledAlike(a: Db, b: Db, id: Id, title: string, body: string)
    requires Alike(a, b) && id in a.posts
    ensures id in b.posts && Alike(C.Retitled(a, id, title, body), C.Retitled(b, id, title, body))
  {
  }

  lemma RelistedAlike(a: Db, b: Db, id: Id)
    requires Alike(a, b)
    ensures Alike(a.(fts := a.fts[id := id]), b.(fts := b.fts[id := id]))
  {
  }

  /** A comment's row and the counter, before the thread is told. */
  function Added(db: Db, id: Id, post: Id, parent: Option<Id>, user: Id, body: string, images: seq<Id>): Db
    requires post in db.posts
  {
    C.AddCount(db.(comments := db.comments[id := Comment(post, parent, user, body, Visible, None, 1, false, None)],
                   side := C.WithImages(db.side, post, Some(id), images)), post, 1)
  }

  lemma AddedAlike(a: Db, b: Db, id: Id, post: Id, parent: Option<Id>, user: Id, body: string, images: seq<Id>)
    requires Alike(a, b) && post in a.posts
    ensures post in b.posts && Alike(Added(a, id, post, parent, user, body, images), Added(b, id, post, parent, user, body, images))
  {
  }

  /** A comment's check and index row, after its thread was told. */
  function Listed(db: Db, id: Id, post: Id, at: int): Db {
    db.(jobs := Schedule(db.jobs, JobKey(CheckComment, id), 1, at, at), fts := db.fts[id := post])
  }

  lemma ListedAlike(a: Db, b: Db, id: Id, post: Id, at: int)
    requires Alike(a, b)
    ensures Alike(Listed(a, id, post, at), Listed(b, id, post, at))
  {
  }

  lemma CreateCommentAlike(a: Db, b: Db, id: Id, post: Id, parent: Id, user: Id, body: string, image: Option<Id>,
                           at: int)
    requires Alike(a, b)
    ensures Agree(C.CreateComment(a, id, post, parent, user, body, image, at),
                  C.CreateComment(b, id, post, parent, user, body, image, at))
  {
    hide C.ThreadChanged, C.WithImages, Schedule, C.ReplyParent, C.FreshImages, C.AddCount, C.IsMember;
    var images := if image.Some? then [image.value] else [];
    RepliesAlike(a, b, post, parent, user, images);
    if post in a.posts && C.ReplyParent(a, post, parent).Some? {
      var top := C.ReplyParent(a, post, parent).value;
      var xa, xb := Added(a, id, post, top, user, body, images), Added(b, id, post, top, user, body, images);
      AddedAlike(a, b, id, post, top, user, body, images);
      ThreadChangedAlike(xa, xb, post, at);
      CommentIs(a, id, post, parent, user, body, image, at);
      CommentIs(b, id, post, parent, user, body, image, at);
      hide C.CreateComment, Added, Alike;
      if C.ThreadChanged(xa, post, at).Some? {
        ListedAlike(C.ThreadChanged(xa, post, at).value, C.ThreadChanged(xb, post, at).value, id, post, at);
      }
    }
  }

  lemma RepliesAlike(a: Db, b: Db, post: Id, parent: Id, user: Id, images: seq<Id>)
    requires Alike(a, b)
    ensures C.ReplyParent(a, post, parent) == C.ReplyParent(b, post, parent)
    ensures (C.FreshImages(a, images) <==> C.FreshImages(b, images)) && (C.IsMember(a, user) <==> C.IsMember(b, user))
  {
  }

  predicate Refused(db: Db, id: Id, post: Id, user: Id, body: string, image: Option<Id>) {
    (body == "" && image.None?) || |body| > MAX_COMMENT || !C.IsMember(db, user) ||
    post !in db.posts || !Shown(db.posts[post].status) || db.posts[post].locked ||
    id in db.comments || !C.FreshImages(db, if image.Some? then [image.value] else [])
  }

  lemma CommentIs(db: Db, id: Id, post: Id, parent: Id, user: Id, body: string, image: Option<Id>, at: int)
    requires post in db.posts && C.ReplyParent(db, post, parent).Some?
    ensures var told := C.ThreadChanged(Added(db, id, post, C.ReplyParent(db, post, parent).value, user, body,
                                                  if image.Some? then [image.value] else []), post, at);
            C.CreateComment(db, id, post, parent, user, body, image, at) ==
            if Refused(db, id, post, user, body, image) || told.None? then None
            else Some(Listed(told.value, id, post, at))
  {
  }

  lemma EditCommentAlike(a: Db, b: Db, id: Id, body: string, at: int)
    requires Alike(a, b)
    ensures Agree(C.EditComment(a, id, body, at), C.EditComment(b, id, body, at))
  {
    hide C.ThreadChanged, C.SaveRevision, C.Rewritten;
    SaveRevisionAlike(a, b, Item(AComment, id), at);
    if id in a.comments && C.SaveRevision(a, Item(AComment, id), at).Some? {
      var sa, sb := C.SaveRevision(a, Item(AComment, id), at).value, C.SaveRevision(b, Item(AComment, id), at).value;
      if id in sa.comments {
        RewrittenAlike(sa, sb, id, body, at);
        ThreadChangedAlike(C.Rewritten(sa, id, body, at), C.Rewritten(sb, id, body, at), a.comments[id].post, at);
      }
    }
  }

  lemma RewrittenAlike(a: Db, b: Db, id: Id, body: string, at: int)
    requires Alike(a, b) && id in a.comments
    ensures id in b.comments && Alike(C.Rewritten(a, id, body, at), C.Rewritten(b, id, body, at))
  {
  }

  lemma SoftDeleteAlike(a: Db, b: Db, item: Item, byMod: bool, at: int)
    requires Alike(a, b)
    ensures Agree(C.SoftDelete(a, item, byMod, at), C.SoftDelete(b, item, byMod, at))
  {
    hide C.ThreadChanged, C.SetStatus, C.AddCount, C.StatusOf, C.ThreadOf, C.Exists, Alike;
    ItemAlike(a, b, item);
    if C.Exists(a, item) && !Gone(C.StatusOf(a, item)) {
      var keep := if byMod then MOD_REMOVE_KEEP else AUTHOR_DELETE_KEEP;
      var to := if byMod then Removed else Deleted;
      var fa, fb := Filed(a, item, to, Some(at + keep)), Filed(b, item, to, Some(at + keep));
      FiledAlike(a, b, item, to, Some(at + keep));
      ToldAndCounted(fa, fb, C.ThreadOf(a, item), -1, at);
      if C.ThreadChanged(fa, C.ThreadOf(a, item), at).Some? {
        if item.kind == AComment && Shown(C.StatusOf(a, item)) &&
           C.ThreadOf(a, item) in C.ThreadChanged(fa, C.ThreadOf(a, item), at).value.posts {
        } else {
        }
      }
    }
  }

  lemma ToldAndCounted(a: Db, b: Db, p: Id, n: int, at: int)
    requires Alike(a, b)
    ensures Agree(C.ThreadChanged(a, p, at), C.ThreadChanged(b, p, at))
    ensures C.ThreadChanged(a, p, at).Some? ==>
              var x, y := C.ThreadChanged(a, p, at).value, C.ThreadChanged(b, p, at).value;
              (p in x.posts <==> p in y.posts) && (p in x.posts ==> Alike(C.AddCount(x, p, n), C.AddCount(y, p, n)))
  {
    ThreadChangedAlike(a, b, p, at);
    hide C.ThreadChanged;
    if C.ThreadChanged(a, p, at).Some? && p in C.ThreadChanged(a, p, at).value.posts {
      AddCountAlike(C.ThreadChanged(a, p, at).value, C.ThreadChanged(b, p, at).value, p, n);
    }
  }

  lemma RestoreAlike(a: Db, b: Db, item: Item, at: int)
    requires Alike(a, b)
    ensures Agree(C.Restore(a, item, at), C.Restore(b, item, at))
  {
    ItemAlike(a, b, item);
    if C.Exists(a, item) {
      FiledAlike(a, b, item, Visible, None);
      ToldAndCounted(Filed(a, item, Visible, None), Filed(b, item, Visible, None), C.ThreadOf(a, item), 1, at);
      hide C.ThreadChanged, C.SetStatus, C.AddCount, C.StatusOf, C.ThreadOf, C.Exists, Alike;
    }
  }

  lemma ApproveAlike(a: Db, b: Db, item: Item, at: int)
    requires Alike(a, b)
    ensures Agree(C.Approve(a, item, at), C.Approve(b, item, at))
  {
    ItemAlike(a, b, item);
    if C.Exists(a, item) {
      ChangeStatusAlike(a, b, item, Visible, at);
      if C.ChangeStatus(a, item, Visible, at).Some? {
        ClearAndCheck(C.ChangeStatus(a, item, Visible, at).value, C.ChangeStatus(b, item, Visible, at).value, item, at);
      }
    }
    hide C.ChangeStatus, C.SetCleared, C.VersionOf, Schedule, C.StatusOf, C.Exists, Alike;
  }

  lemma ClearAndCheck(a: Db, b: Db, item: Item, at: int)
    requires Alike(a, b)
    ensures C.Exists(a, item) <==> C.Exists(b, item)
    ensures C.Exists(a, item) ==>
              var x, y := C.SetCleared(a, item), C.SetCleared(b, item);
              C.Exists(x, item) && C.Exists(y, item) && Alike(x, y) &&
              Alike(x.(jobs := Schedule(x.jobs, C.CheckKey(item), C.VersionOf(x, item), at, at)),
                    y.(jobs := Schedule(y.jobs, C.CheckKey(item), C.VersionOf(y, item), at, at)))
  {
    hide Schedule, C.SetCleared, C.VersionOf, C.Exists, Alike, C.CheckKey;
    ItemAlike(a, b, item);
    if C.Exists(a, item) {
      SetClearedAlike(a, b, item);
      ItemAlike(C.SetCleared(a, item), C.SetCleared(b, item), item);
      QueuedAlike(C.SetCleared(a, item), C.SetCleared(b, item), C.CheckKey(item),
                  C.VersionOf(C.SetCleared(a, item), item), at);
    }
  }

  /** A report that is on file, before anything comes of it. */
  function Reported(db: Db, item: Item,
                    user: Id): Db { db.(side := db.side.(reports := db.side.reports + {(item, user)})) }

  lemma ReportedAlike(a: Db, b: Db, item: Item, user: Id)
    requires Alike(a, b)
    ensures Alike(Reported(a, item, user), Reported(b, item, user)) && (C.IsMember(a, user) <==> C.IsMember(b, user))
    ensures (C.Exists(Reported(a, item, user), item) <==> C.Exists(a, item)) &&
            (C.Exists(Reported(b, item, user), item) <==> C.Exists(b, item))
  {
  }

  lemma ReportAlike(a: Db, b: Db, item: Item, user: Id, at: int)
    requires Alike(a, b)
    ensures Agree(C.Report(a, item, user, at), C.Report(b, item, user, at))
  {
    hide C.ChangeStatus, Schedule, C.StatusOf, C.AuthorOf, C.Cleared, C.VersionOf, C.Exists, C.IsMember, C.CheckKey,
      Alike;
    ItemAlike(a, b, item);
    ReportedAlike(a, b, item, user);
    var ra, rb := Reported(a, item, user), Reported(b, item, user);
    if C.Exists(a, item) {
      var k, v := C.CheckKey(item), C.VersionOf(a, item);
      if C.StatusOf(a, item) == Visible && !C.Cleared(a, item) {
        ChangeStatusAlike(ra, rb, item, Flagged, at);
        if C.ChangeStatus(ra, item, Flagged, at).Some? {
          QueuedAlike(C.ChangeStatus(ra, item, Flagged, at).value, C.ChangeStatus(rb, item, Flagged, at).value, k, v,
                      at);
        }
      } else {
        QueuedAlike(ra, rb, k, v, at);
      }
    }
  }

  lemma QueuedAlike(a: Db, b: Db, k: JobKey, version: nat, at: int)
    requires Alike(a, b)
    ensures Alike(a.(jobs := Schedule(a.jobs, k, version, at, at)), b.(jobs := Schedule(b.jobs, k, version, at, at)))
  {
  }

  lemma CanVoteAlike(a: Db, b: Db, item: Item, user: Id, at: int)
    requires Alike(a, b) && C.Exists(a, item)
    ensures C.Exists(b, item) && (C.CanVote(a, item, user, at) <==> C.CanVote(b, item, user, at))
  {
  }

  lemma VoteAlike(a: Db, b: Db, item: Item, user: Id, keep: bool, at: int)
    requires Alike(a, b)
    ensures Agree(C.Vote(a, item, user, keep, at), C.Vote(b, item, user, keep, at))
  {
    hide C.ChangeStatus, C.CanVote, C.Ballots;
    if C.Exists(a, item) {
      CanVoteAlike(a, b, item, user, at);
      var va := a.(side := a.side.(flagVotes := a.side.flagVotes[(item, user) := keep]));
      var vb := b.(side := b.side.(flagVotes := b.side.flagVotes[(item, user) := keep]));
      ChangeStatusAlike(va, vb, item, AutoHidden, at);
      ChangeStatusAlike(va, vb, item, Visible, at);
    }
  }

  lemma SetCheckAlike(a: Db, b: Db, id: Id, worker: string, version: nat, verdict: C.Verdict, links: seq<C.CheckLink>,
                      at: int)
    requires Alike(a, b)
    ensures Agree(C.SetCheck(a, id, worker, version, verdict, links, at),
                  C.SetCheck(b, id, worker, version, verdict, links, at))
  {
    hide C.ApplyVerdict, C.AddLinks, Finish, Accepts;
    if id in a.posts {
      var fa := a.(jobs := Finish(a.jobs, JobKey(Check, id), worker, version, a.posts[id].version, at));
      var fb := b.(jobs := Finish(b.jobs, JobKey(Check, id), worker, version, b.posts[id].version, at));
      ApplyVerdictAlike(fa, fb, Item(APost, id), verdict, at);
      if C.ApplyVerdict(fa, Item(APost, id), verdict, at).Some? {
        AddLinksAlike(C.ApplyVerdict(fa, Item(APost, id), verdict, at).value,
                      C.ApplyVerdict(fb, Item(APost, id), verdict, at).value, id, links, at);
      }
    }
  }

  lemma SetCommentCheckAlike(a: Db, b: Db, id: Id, worker: string, version: nat, verdict: C.Verdict, at: int)
    requires Alike(a, b)
    ensures Agree(C.SetCommentCheck(a, id, worker, version, verdict, at),
                  C.SetCommentCheck(b, id, worker, version, verdict, at))
  {
    hide C.ApplyVerdict, Finish, Accepts;
    if id in a.comments {
      var fa := a.(jobs := Finish(a.jobs, JobKey(CheckComment, id), worker, version, a.comments[id].version, at));
      var fb := b.(jobs := Finish(b.jobs, JobKey(CheckComment, id), worker, version, b.comments[id].version, at));
      ApplyVerdictAlike(fa, fb, Item(AComment, id), verdict, at);
    }
  }

  lemma MovesAlike(a: Db, b: Db, id: Id, under: Id, at: int)
    requires Alike(a, b)
    ensures Agree(C.MoveUnder(a, id, under, at), C.MoveUnder(b, id, under, at))
    ensures Agree(C.MoveOut(a, id, at), C.MoveOut(b, id, at))
  {
    hide C.ThreadChanged;
    ThreadChangedAlike(a, b, id, at);
    if id in a.posts {
      ThreadChangedAlike(a.(posts := a.posts[id := a.posts[id].(continues := Some(under))]),
                         b.(posts := b.posts[id := b.posts[id].(continues := Some(under))]), id, at);
    }
  }

  lemma RemovalAlike(a: Db, b: Db, id: Id, at: int)
    requires Alike(a, b)
    ensures Agree(C.RequestArchiveRemoval(a, id, at), C.RequestArchiveRemoval(b, id, at))
  {
    hide C.ThreadChanged;
    if id in a.posts {
      ThreadChangedAlike(TakenDown(a, id, at), TakenDown(b, id, at), id, at);
    }
  }

  /** What an accepted text makes of its note. */
  function Noted(note: NoteRow, text: string, noChange: bool): NoteRow {
    if (noChange && note.text != "") || C.Cut(text) == "" then note.(stale := false)
    else note.(text := C.Cut(text), stale := false)
  }

  lemma SetNoteIs(db: Db, n: Id, worker: string, version: nat, text: string, noChange: bool, at: int)
    ensures var finished := db.(jobs := Finish(db.jobs, JobKey(Note, n), worker, version, NoteVersion(db, n), at));
            C.SetNote(db, n, worker, version, text, noChange, at) ==
            if !Accepts(db.jobs, JobKey(Note, n), worker, version, NoteVersion(db, n)) then Some(finished)
            else if n !in db.notes then None
            else Some(finished.(notes := db.notes[n := Noted(db.notes[n], text, noChange)]))
  {
  }

  lemma NotesAlike(a: Db, b: Db, n: Id, worker: string, version: nat, text: string, noChange: bool, at: int)
    requires Alike(a, b)
    ensures Agree(C.SetNote(a, n, worker, version, text, noChange, at),
                  C.SetNote(b, n, worker, version, text, noChange, at))
  {
    hide Finish, Accepts, NoteVersion, C.SetNote, Noted;
    NoteVersionAlike(a, b, n);
    SetNoteIs(a, n, worker, version, text, noChange, at);
    SetNoteIs(b, n, worker, version, text, noChange, at);
    if !Accepts(a.jobs, JobKey(Note, n), worker, version, NoteVersion(a, n)) {
    } else if n !in a.notes {
    } else {
    }
  }

  lemma NoteVersionAlike(a: Db, b: Db, n: Id)
    requires Alike(a, b)
    ensures NoteVersion(a, n) == NoteVersion(b, n)
  {
  }

  /** A digest's job closed or released, and the digest stored if it is accepted. */
  function Digested(db: Db, id: Id, worker: string, version: nat, digest: string, at: int): Db
    requires id in db.posts
  {
    var v := db.posts[id].threadVersion;
    var kept := if C.Cut(digest) == "" then None else Some(C.Cut(digest));
    db.(jobs := Finish(db.jobs, JobKey(Digest, id), worker, version, v, at),
        posts := if Accepts(db.jobs, JobKey(Digest, id), worker, version, v) then db.posts[id := db.posts[id].(digest := kept)]
                 else db.posts)
  }

  lemma SetDigestIsDigested(db: Db, id: Id, worker: string, version: nat, digest: string, at: int)
    requires id in db.posts
    ensures C.SetDigest(db, id, worker, version, digest, at) == Some(Digested(db, id, worker, version, digest, at))
  {
    hide Finish, Accepts, C.Cut;
  }

  lemma DigestedAlike(a: Db, b: Db, id: Id, worker: string, version: nat, digest: string, at: int)
    requires Alike(a, b) && id in a.posts
    ensures id in b.posts && Alike(Digested(a, id, worker, version, digest, at), Digested(b, id, worker, version, digest, at))
  {
    hide Finish, Accepts, C.Cut;
  }

  lemma SetDigestAlike(a: Db, b: Db, id: Id, worker: string, version: nat, digest: string, at: int)
    requires Alike(a, b)
    ensures Agree(C.SetDigest(a, id, worker, version, digest, at), C.SetDigest(b, id, worker, version, digest, at))
  {
    hide Finish, Accepts, C.Cut, Digested;
    if id in a.posts {
      SetDigestIsDigested(a, id, worker, version, digest, at);
      SetDigestIsDigested(b, id, worker, version, digest, at);
      DigestedAlike(a, b, id, worker, version, digest, at);
      hide Alike, C.SetDigest;
    }
  }

  lemma SistersAlike(a: Db, b: Db, n: Id, version: nat, at: int)
    requires Alike(a, b)
    ensures Agree(C.MarkSisterStale(a, n, version, at), C.MarkSisterStale(b, n, version, at))
  {
    hide Schedule, SumSources;
  }

  /** The notes of two threads on each other, removed. */
  function Unlinked(notes: map<Id, NoteRow>, sources: seq<NoteSource>, x: Id, y: Id, who: Id): map<Id, NoteRow> {
    map n | n in notes ::
      if exists s <- sources :: s.note == n && ((notes[n].host == x && s.post == y) || (notes[n].host == y && s.post == x))
      then notes[n].(active := false, removedBy := Some(who)) else notes[n]
  }

  lemma RemoveLinkIs(db: Db, x: Id, y: Id, who: Id)
    ensures var key := if x < y then (x, y) else (y, x);
            C.RemoveLink(db, x, y, who) ==
            if key !in db.links then None
            else Some(db.(links := db.links[key := false], notes := Unlinked(db.notes, db.sources, x, y, who)))
  {
  }

  lemma RemoveLinkAlike(a: Db, b: Db, x: Id, y: Id, who: Id)
    requires Alike(a, b)
    ensures Agree(C.RemoveLink(a, x, y, who), C.RemoveLink(b, x, y, who))
  {
    hide Unlinked, C.RemoveLink;
    RemoveLinkIs(a, x, y, who);
    RemoveLinkIs(b, x, y, who);
  }

  lemma PurgeAlike(a: Db, b: Db, before: int)
    requires Alike(a, b)
    ensures Alike(C.PurgeGroup(a, before), C.PurgeGroup(b, before))
  {
  }
}
