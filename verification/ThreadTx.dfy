/**
 The transactions of checks, digests, links, moves, imports and the purge, statement by statement
 (internal/cmd/moderation.go, links.go, archive.go, sources.go, purge.go).
 */
module ThreadTx {
  import opened Types
  import opened Jobs
  import opened Tables
  import opened GroupTx
  import opened PostTx
  import C = Commands

  // ---- Checks ----

  /** applyVerdict. */
  method ApplyVerdict(tx: Db, item: Item, verdict: C.Verdict, at: int) returns (r: Option<Db>)
    ensures r == C.ApplyVerdict(tx, item, verdict, at)
  {
    hide C.ChangeStatus;
    if verdict != C.Borderline && verdict != C.Violation {
      return Some(tx);
    }
    if !C.Exists(tx, item) {
      return None;
    }
    if C.Cleared(tx, item) || !Shown(C.StatusOf(tx, item)) {
      return Some(tx);
    }
    var to := Flagged;
    if verdict == C.Violation {
      to := AutoHidden;
    } else if C.StatusOf(tx, item) == Flagged {
      return Some(tx); // a report got there first
    }
    r := ChangeStatus(tx, item, to, at);
  }

  /** finishJob: closes the job if the result is for the current version; otherwise releases it. */
  method FinishJob(tx: Db, k: JobKey, worker: string, version: nat, current: nat, at: int) returns (r: Db, ok: bool)
    ensures r == tx.(jobs := Finish(tx.jobs, k, worker, version, current, at))
    ensures ok == Accepts(tx.jobs, k, worker, version, current)
  {
    if k !in tx.jobs {
      return tx, false;
    }
    var j := tx.jobs[k];
    var claimed := if j.claimedBy.Some? then j.claimedBy.value else "";
    if claimed != worker {
      return tx, false; // not this worker's any more
    }
    j := j.(claimedBy := None, leaseUntil := None);
    if version != current {
      return tx.(jobs := tx.jobs[k := j]), false;
    }
    j := j.(doneAt := Some(at), lastRunAt := Some(at), lastError := None);
    return tx.(jobs := tx.jobs[k := j]), true;
  }

  method SetCommentCheck(tx: Db, id: Id, worker: string, version: nat, verdict: C.Verdict,
                         at: int) returns (r: Option<Db>)
    ensures r == C.SetCommentCheck(tx, id, worker, version, verdict, at)
  {
    hide C.ApplyVerdict, Finish, Accepts;
    if id !in tx.comments {
      return None;
    }
    var db, ok := FinishJob(tx, JobKey(CheckComment, id), worker, version, tx.comments[id].version, at);
    if !ok {
      return Some(db);
    }
    r := ApplyVerdict(db, Item(AComment, id), verdict, at);
  }

  method SetDigest(tx: Db, id: Id, worker: string, version: nat, digest: string, at: int) returns (r: Option<Db>)
    ensures r == C.SetDigest(tx, id, worker, version, digest, at)
  {
    hide Finish, Accepts;
    var cut := digest;
    if |cut| > MAX_NOTE {
      cut := cut[..MAX_NOTE];
    }
    if id !in tx.posts {
      return None;
    }
    var db, ok := FinishJob(tx, JobKey(Digest, id), worker, version, tx.posts[id].threadVersion, at);
    if !ok {
      return Some(db);
    }
    db := db.(posts := db.posts[id := db.posts[id].(digest := if cut == "" then None else Some(cut))]);
    return Some(db);
  }

  method SetNote(tx: Db, n: Id, worker: string, version: nat, text: string, noChange: bool,
                 at: int) returns (r: Option<Db>)
    ensures r == C.SetNote(tx, n, worker, version, text, noChange, at)
  {
    hide Finish, Accepts, NoteVersion;
    var cut := text;
    if |cut| > MAX_NOTE {
      cut := cut[..MAX_NOTE];
    }
    var current := NoteVersion(tx, n);
    var db, ok := FinishJob(tx, JobKey(Note, n), worker, version, current, at);
    if !ok {
      return Some(db);
    }
    if n !in db.notes {
      return None;
    }
    if (noChange && db.notes[n].text != "") || cut == "" {
      return Some(db.(notes := db.notes[n := db.notes[n].(stale := false)]));
    }
    return Some(db.(notes := db.notes[n := db.notes[n].(text := cut, stale := false)]));
  }

  // ---- Members and mods ----

  method Approve(tx: Db, item: Item, at: int) returns (r: Option<Db>)
    ensures r == C.Approve(tx, item, at)
  {
    hide C.ChangeStatus, Jobs.Schedule;
    if !C.Exists(tx, item) || Gone(C.StatusOf(tx, item)) {
      return None;
    }
    var was := C.StatusOf(tx, item);
    var changed := ChangeStatus(tx, item, Visible, at);
    if changed.None? || !C.Exists(changed.value, item) {
      return None;
    }
    var db := C.SetCleared(changed.value, item);
    if was == Held && item.kind == APost {
      db := ScheduleJob(db, C.CheckKey(item), C.VersionOf(db, item), at, at);
    }
    return Some(db);
  }

  method Report(tx: Db, item: Item, user: Id, at: int) returns (r: Option<Db>)
    ensures r == C.Report(tx, item, user, at)
  {
    hide C.ChangeStatus, C.IsMember, Jobs.Schedule;
    if !C.IsMember(tx, user) {
      return None;
    }
    if !C.Exists(tx, item) || C.AuthorOf(tx, item) == user {
      return None;
    }
    var version := C.VersionOf(tx, item);
    var db := tx.(side := tx.side.(reports := tx.side.reports + {(item, user)}));
    if C.StatusOf(tx, item) == Visible && !C.Cleared(tx, item) {
      var flagged := ChangeStatus(db, item, Flagged, at);
      if flagged.None? {
        return None;
      }
      db := flagged.value;
    }
    db := ScheduleJob(db, C.CheckKey(item), version, at, at);
    return Some(db);
  }

  method Vote(tx: Db, item: Item, user: Id, keep: bool, at: int) returns (r: Option<Db>)
    ensures r == C.Vote(tx, item, user, keep, at)
  {
    hide C.ChangeStatus, C.CanVote, C.SetCleared, C.Ballots;
    if !C.Exists(tx, item) || C.StatusOf(tx, item) != Flagged {
      return None;
    }
    if !C.CanVote(tx, item, user, at) {
      return None;
    }
    var db := tx.(side := tx.side.(flagVotes := tx.side.flagVotes[(item, user) := keep]));
    var keeps, hides := |C.Ballots(db.side, item, true)|, |C.Ballots(db.side, item, false)|;
    if hides >= tx.voteThreshold && hides > keeps {
      r := ChangeStatus(db, item, AutoHidden, at);
    } else if keeps >= tx.voteThreshold {
      var shown := ChangeStatus(db, item, Visible, at);
      if shown.None? || !C.Exists(shown.value, item) {
        return None;
      }
      r := Some(C.SetCleared(shown.value, item));
    } else {
      r := Some(db);
    }
  }

  // ---- Links ----

  /** linkNote: the note that is there is made active and stale again; otherwise a new one. */
  method LinkNote(tx: Db, group: Id, host: Id, other: Id, id: Id, ext: nat, at: int) returns (r: Option<Db>)
    ensures r == C.LinkNote(tx, group, host, other, id, ext, at)
  {
    hide C.FindNote, NoteVersion, Jobs.Schedule;
    var found := C.FindNote(tx.notes, tx.sources, group, host, other);
    var db := tx;
    var n := id;
    if found.Some? {
      n := found.value;
      if n !in db.notes {
        return None;
      }
      var note := db.notes[n].(active := true, removedBy := None, stale := true);
      if note.ext < ext {
        note := note.(ext := ext);
      }
      db := db.(notes := db.notes[n := note]);
    } else {
      if n in db.notes || NoteSource(n, group, other) in db.sources {
        return None; // the primary keys
      }
      db := db.(notes := db.notes[n := NoteRow(host, "", true, true, None, ext)]);
      db := db.(sources := db.sources + [NoteSource(n, group, other)]);
    }
    var v := NoteVersion(db, n);
    db := ScheduleJob(db, JobKey(Note, n), v, at, at);
    return Some(db);
  }

  /** addLink. */
  method AddLink(tx: Db, a: Id, b: Id, auto: bool, noteA: Id, noteB: Id, at: int) returns (r: Option<Db>)
    ensures r == C.AddLink(tx, a, b, auto, noteA, noteB, at)
  {
    hide C.LinkNote;
    if !C.Linkable(tx, a, b) {
      return None;
    }
    var key := if a < b then (a, b) else (b, a);
    if key in tx.links && (tx.links[key] || auto) {
      return Some(tx);
    }
    var db := tx.(links := tx.links[key := true]);
    var one := LinkNote(db, tx.group, a, b, noteA, 0, at);
    if one.None? {
      return None;
    }
    r := LinkNote(one.value, tx.group, b, a, noteB, 0, at);
  }

  method SetCheck(tx: Db, id: Id, worker: string, version: nat, verdict: C.Verdict, links: seq<C.CheckLink>,
                  at: int) returns (r: Option<Db>)
    ensures r == C.SetCheck(tx, id, worker, version, verdict, links, at)
  {
    hide C.ApplyVerdict, Finish, Accepts, C.AddLink;
    if id !in tx.posts {
      return None;
    }
    var db, ok := FinishJob(tx, JobKey(Check, id), worker, version, tx.posts[id].version, at);
    if !ok {
      return Some(db);
    }
    var judged := ApplyVerdict(db, Item(APost, id), verdict, at);
    if judged.None? {
      return None;
    }
    if verdict == C.Violation || !Shown(tx.posts[id].status) {
      return judged;
    }
    r := AddLinks(judged.value, id, links, at);
  }

  /** The matches of a check, added one by one. One that cannot be linked any more is skipped; any
      other error ends the command. */
  method AddLinks(tx: Db, post: Id, links: seq<C.CheckLink>, at: int) returns (r: Option<Db>)
    ensures r == C.AddLinks(tx, post, links, at)
  {
    hide C.AddLink;
    var db := tx;
    for i := 0 to |links|
      invariant C.AddLinks(tx, post, links[..i], at) == Some(db)
    {
      assert links[..i + 1][..i] == links[..i];
      var linked := AddLink(db, post, links[i].other, true, links[i].noteHere, links[i].noteThere, at);
      if linked.Some? {
        LinkedIsLinkable(db, post, links[i].other, links[i].noteHere, links[i].noteThere, at);
        db := linked.value;
      } else if C.Linkable(db, post, links[i].other) {
        AddLinksFail(tx, post, links, at, i + 1);
        return None;
      }
    }
    assert links[..|links|] == links;
    r := Some(db);
  }

  lemma {:induction false} AddLinksFail(tx: Db, post: Id, links: seq<C.CheckLink>, at: int, n: nat)
    requires n <= |links| && C.AddLinks(tx, post, links[..n], at).None?
    ensures C.AddLinks(tx, post, links, at).None?
    decreases |links| - n
  {
    if n == |links| {
      assert links[..n] == links;
    } else {
      assert links[..n + 1][..n] == links[..n];
      AddLinksFail(tx, post, links, at, n + 1);
    }
  }

  lemma LinkedIsLinkable(db: Db, a: Id, b: Id, noteA: Id, noteB: Id, at: int)
    requires C.AddLink(db, a, b, true, noteA, noteB, at).Some?
    ensures C.Linkable(db, a, b)
  {
  }

  // ---- Moves ----

  method MoveUnder(tx: Db, id: Id, under: Id, at: int) returns (r: Option<Db>)
    ensures r == C.MoveUnder(tx, id, under, at)
  {
    hide C.ThreadChanged;
    if under >= id {
      return None;
    }
    var both := [id, under];
    for i := 0 to 2
      invariant forall k | 0 <= k < i ::
        both[k] in tx.posts && Shown(tx.posts[both[k]].status) && tx.posts[both[k]].continues.None?
    {
      if both[i] !in tx.posts || !Shown(tx.posts[both[i]].status) {
        return None;
      }
      if tx.posts[both[i]].continues.Some? {
        return None;
      }
    }
    assert both[0] == id && both[1] == under;
    if exists p <- tx.posts :: tx.posts[p].continues == Some(id) {
      return None;
    }
    var db := tx.(posts := tx.posts[id := tx.posts[id].(continues := Some(under))]);
    r := ThreadChanged(db, id, at);
  }

  method MoveOut(tx: Db, id: Id, at: int) returns (r: Option<Db>)
    ensures r == C.MoveOut(tx, id, at)
  {
    hide C.ThreadChanged;
    if id !in tx.posts {
      return None;
    }
    if tx.posts[id].continues.None? {
      return Some(tx);
    }
    var changed := ThreadChanged(tx, id, at);
    if changed.None? || id !in changed.value.posts {
      return None;
    }
    var db := changed.value;
    return Some(db.(posts := db.posts[id := db.posts[id].(continues := None)]));
  }

  // ---- Imports ----

  /** One comment of an archive: inserted, updated, or left alone if it was taken down. */
  method ImportComment(im: C.Import, post: Id, cm: C.ArchiveComment) returns (r: Option<C.Import>)
    ensures r == C.ImportComment(im, post, cm)
  {
    hide C.WithImages, C.FreshImages;
    var db := im.db;
    var parent: Option<Id> := None;
    if cm.parentRef in im.ids {
      parent := Some(im.ids[cm.parentRef]);
    }
    var images := if cm.image.Some? then [cm.image.value] else [];
    FreshRowsAre(db, images);
    var id, changed := cm.id, im.changed;
    if cm.ref !in db.commentRefs {
      changed := true;
      if id in db.comments {
        return None;
      }
      db := db.(comments := db.comments[id := Comment(post, parent, 0, cm.body, Visible, None, 1, false, Some(cm.ref))]);
      db := db.(commentRefs := db.commentRefs[cm.ref := id]);
    } else {
      id := db.commentRefs[cm.ref];
      if id !in db.comments {
        return None;
      }
      if !Shown(db.comments[id].status) {
        return Some(im.(ids := im.ids[cm.ref := id])); // hidden here: nothing but its id is noted
      }
      changed := changed || db.comments[id].body != cm.body;
      db := db.(comments := db.comments[id := db.comments[id].(body := cm.body, parent := parent)]);
    }
    var side := InsertImages(db.side, post, Some(id), images);
    if side.None? {
      return None;
    }
    db := db.(side := side.value);
    db := db.(fts := db.fts[id := post]);
    return Some(C.Import(db, im.ids[cm.ref := id], changed));
  }

  lemma {:induction false} ImportFails(im: C.Import, post: Id, cms: seq<C.ArchiveComment>, i: nat)
    requires i < |cms| && C.ImportComments(im, post, cms[..i + 1]).None?
    ensures C.ImportComments(im, post, cms).None?
    decreases |cms|
  {
    hide C.ImportComment;
    if i + 1 == |cms| {
      assert cms[..i + 1] == cms;
    } else {
      assert cms[..|cms| - 1][..i + 1] == cms[..i + 1];
      ImportFails(im, post, cms[..|cms| - 1], i);
    }
  }

  method ImportComments(start: C.Import, post: Id, cms: seq<C.ArchiveComment>) returns (r: Option<C.Import>)
    ensures r == C.ImportComments(start, post, cms)
  {
    hide C.ImportComment;
    var im := start;
    for i := 0 to |cms|
      invariant C.ImportComments(start, post, cms[..i]) == Some(im)
    {
      assert cms[..i + 1][..i] == cms[..i];
      var next := ImportComment(im, post, cms[i]);
      if next.None? {
        ImportFails(start, post, cms, i);
        return None;
      }
      im := next.value;
    }
    assert cms[..|cms|] == cms;
    return Some(im);
  }

  /** The post's own row: new, or its text replaced. */
  method ImportOwnRow(tx: Db, id: Id, ref: string, title: string, body: string) returns (r: Option<Db>, pid: Id)
    ensures pid == if ref in tx.postRefs then tx.postRefs[ref] else id
    ensures r.None? <==> (ref !in tx.postRefs) == (pid in tx.posts)
    ensures r.Some? ==> r.value == tx.(
      posts := tx.posts[pid := if ref in tx.postRefs then tx.posts[pid].(title := title, body := body)
                               else Post(0, title, body, Visible, 0, None, None, None, 1, 1, true, false, Some(ref))],
      postRefs := tx.postRefs[ref := pid])
  {
    if ref !in tx.postRefs {
      if id in tx.posts {
        return None, id;
      }
      var db := tx.(posts := tx.posts[id :=
      Post(0, title, body, Visible, 0, None, None, None, 1, 1, true, false, Some(ref))]);
      return Some(db.(postRefs := db.postRefs[ref := id])), id;
    }
    pid := tx.postRefs[ref];
    if pid !in tx.posts {
      return None, pid;
    }
    assert tx.postRefs[ref := pid] == tx.postRefs;
    return Some(tx.(posts := tx.posts[pid := tx.posts[pid].(title := title, body := body)])), pid;
  }

  /** Photos are replaced wholesale. */
  method ReplaceImages(tx: Db, pid: Id, images: seq<Id>) returns (r: Option<Db>)
    ensures r == C.ReplaceImages(tx, pid, images)
  {
    hide C.WithImages, C.FreshImages;
    var bare := tx.(side := tx.side.(images :=
      map i | i in tx.side.images && tx.side.images[i].post != pid :: tx.side.images[i]));
    FreshRowsAre(bare, images);
    var side := InsertImages(bare.side, pid, None, images);
    if side.None? {
      return None;
    }
    return Some(bare.(side := side.value));
  }

  /** The start of an import, up to the post's index row. */
  method ImportRow(tx: Db, id: Id, ref: string, title: string, body: string, images: seq<Id>) returns (r: Option<Db>)
    ensures r == C.ImportRow(tx, id, ref, title, body, images)
  {
    hide C.ReplaceImages;
    var own, pid := ImportOwnRow(tx, id, ref, title, body);
    if own.None? {
      return None;
    }
    var db := ReplaceImages(own.value, pid, images);
    if db.None? {
      return None;
    }
    r := Some(db.value.(fts := db.value.fts[pid := pid]));
  }

  method ImportPost(tx: Db, id: Id, ref: string, title: string, body: string, images: seq<Id>,
                    cms: seq<C.ArchiveComment>, at: int) returns (r: Option<Db>)
    ensures r == C.ImportPost(tx, id, ref, title, body, images, cms, at)
  {
    hide C.ImportRow, C.ImportComments, C.PostEdited, C.ThreadChanged, Jobs.Schedule, ShownComments;
    if ref == "" || title == "" {
      return None;
    }
    var isNew, pid, postChanged := false, id, false;
    if ref !in tx.postRefs {
      isNew := true;
    } else {
      pid := tx.postRefs[ref];
      if pid in tx.posts {
        if !Shown(tx.posts[pid].status) {
          return Some(tx); // hidden here: nothing to do
        }
        postChanged := tx.posts[pid].title != title || tx.posts[pid].body != body;
      }
    }
    var row := ImportRow(tx, id, ref, title, body, images);
    if row.None? {
      return None;
    }
    var im := ImportComments(C.Import(row.value, map[], false), pid, cms);
    if im.None? || pid !in im.value.db.posts {
      return None;
    }
    var db := im.value.db;
    db := db.(posts := db.posts[pid := db.posts[pid].(commentCount := |ShownComments(db.comments, pid)|)]);
    if isNew {
      db := ScheduleJob(db, JobKey(Check, pid), 1, at, at);
      db := ScheduleJob(db, JobKey(Digest, pid), 1, at, at);
      return Some(db);
    }
    if postChanged {
      r := PostEdited(db, pid, at);
      return;
    }
    if im.value.changed {
      r := ThreadChanged(db, pid, at);
      return;
    }
    return Some(db);
  }

  method RequestArchiveRemoval(tx: Db, id: Id, at: int) returns (r: Option<Db>)
    ensures r == C.RequestArchiveRemoval(tx, id, at)
  {
    hide C.ThreadChanged;
    if id !in tx.posts || tx.posts[id].originRef.None? {
      return None;
    }
    if Gone(tx.posts[id].status) {
      return Some(tx);
    }
    var db := SetStatus(tx, Item(APost, id), Removed, Some(at + MOD_REMOVE_KEEP));
    db := db.(fts := map i | i in tx.fts && tx.fts[i] != id :: tx.fts[i]);
    r := ThreadChanged(db, id, at);
  }

  // ---- The purge ----

  lemma {:induction false} KeepFrom(sources: seq<NoteSource>, notes: map<Id, NoteRow>, posts: set<Id>, group: Id,
                                    i: nat)
    requires i < |sources|
    ensures C.KeepSources(sources[i..], notes, posts, group) ==
            (if C.SourceStays(sources[i], notes, posts, group) then [sources[i]] else []) +
            C.KeepSources(sources[i + 1..], notes, posts, group)
  {
  }

  /** DELETE FROM note_sources. */
  method DeleteSources(sources: seq<NoteSource>, notes: map<Id, NoteRow>, posts: set<Id>,
                       group: Id) returns (kept: seq<NoteSource>)
    ensures kept == C.KeepSources(sources, notes, posts, group)
  {
    kept := [];
    assert sources[0..] == sources;
    for i := 0 to |sources|
      invariant kept + C.KeepSources(sources[i..], notes, posts, group) == C.KeepSources(sources, notes, posts, group)
    {
      KeepFrom(sources, notes, posts, group, i);
      var s := sources[i];
      if !(s.group == group && s.post !in posts) && !(s.note in notes && notes[s.note].host !in posts) {
        kept := kept + [s];
      }
    }
  }

  /** DELETE FROM comments, then DELETE FROM posts unless one still holds a comment: no expired
      post does by then. */
  method DeleteExpired(posts: map<Id, Post>, comments: map<Id, Comment>, before: int)
    returns (posts': map<Id, Post>, comments': map<Id, Comment>)
    ensures posts' == C.KeptPosts(posts, before) && comments' == C.KeptComments(posts, comments, before)
  {
    comments' := map c | c in comments && !(C.Expired(comments[c].purgeAfter, before) ||
      (comments[c].post in posts && C.Expired(posts[comments[c].post].purgeAfter, before))) :: comments[c];
    posts' := map p | p in posts && !(C.Expired(posts[p].purgeAfter, before) &&
              !(exists c <- comments' :: comments'[c].post == p)) :: posts[p];
  }

  /** The deletions in the order they run. */
  method PurgeGroup(tx: Db, before: int) returns (db: Db)
    ensures db == C.PurgeGroup(tx, before)
  {
    hide C.PurgeSide, C.KeptJobs, C.KeptRows, C.KeptLinks, C.KeptNotes, C.CutLoose, C.KeptPosts, C.KeptComments;
    var posts, comments := DeleteExpired(tx.posts, tx.comments, before);
    var fts := C.KeptRows(tx.fts, posts.Keys);
    var links := C.KeptLinks(tx.links, posts.Keys);
    var sources := DeleteSources(tx.sources, tx.notes, posts.Keys, tx.group);
    var notes := C.KeptNotes(tx.notes, sources, posts.Keys);
    var jobs := C.KeptJobs(tx.jobs, posts.Keys, comments.Keys, notes.Keys);
    var side := C.PurgeSide(tx.side, posts.Keys, comments.Keys, before);
    var postRefs, commentRefs := C.KeptRows(tx.postRefs, posts.Keys), C.KeptRows(tx.commentRefs, comments.Keys);
    posts := C.CutLoose(posts);
    db := tx.(posts := posts, comments := comments, side := side, fts := fts, links := links, sources := sources,
              notes := notes, jobs := jobs, postRefs := postRefs, commentRefs := commentRefs);
  }
}
