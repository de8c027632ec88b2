/**
 What each command on a group's log does to the group's tables, as functions: None stands for
 an error, which rolls the transaction back (internal/cmd/posts.go, moderation.go, archive.go,
 links.go, jobs.go, purge.go, sources.go).
 */
module Commands {
  import opened Types
  import opened Jobs
  import opened Tables

  // ---- jobs.go: a thread changed ----

  /** The active notes on other posts that are written from post p. */
  function CitingNotes(db: Db, p: Id): set<Id> {
    set n | n in db.notes && db.notes[n].active && db.notes[n].host != p && NoteSource(n, db.group, p) in db.sources
  }

  /** The jobs table with each of these notes queued for the version it now has. */
  function RequeueNotes(db: Db, ns: set<Id>, at: int): Queue {
    db.jobs + map n | n in ns :: JobKey(Note, n) :=
      Scheduled(Find(db.jobs, JobKey(Note, n)), NoteVersion(db, n), at + QUIET_PERIOD, at)
  }

  function MarkStale(notes: map<Id, NoteRow>, ns: set<Id>): map<Id, NoteRow> {
    map n | n in notes :: if n in ns then notes[n].(stale := true) else notes[n]
  }

  /** A post's digest (and summary) queued for a new version of its thread. */
  function RequeueDigest(db: Db, p: Id, v: nat, at: int): Queue
    requires p in db.posts
  {
    var digest := Schedule(db.jobs, JobKey(Digest, p), v, at + QUIET_PERIOD, at);
    if db.posts[p].commentCount < SUMMARY_MIN then digest
    else Schedule(digest, JobKey(Summary, p), v, at + QUIET_PERIOD, at)
  }

  /** threadChanged for one post: bump its version, queue its digest (and summary), mark what is
      written from it stale, and queue that. */
  function Touch(db: Db, p: Id, at: int): Db
    requires p in db.posts
  {
    var v := db.posts[p].threadVersion + 1;
    var bumped := db.(posts := db.posts[p := db.posts[p].(threadVersion := v)], jobs := RequeueDigest(db, p, v, at),
                      notes := MarkStale(db.notes, CitingNotes(db, p)));
    bumped.(jobs := RequeueNotes(bumped, CitingNotes(db, p), at))
  }

  /** A post that is an update under another post is part of that thread too. */
  function ThreadChanged(db: Db, p: Id, at: int): Option<Db> {
    if p !in db.posts then None else
      match db.posts[p].continues
      case None => Some(Touch(db, p, at))
      case Some(q) => if q !in db.posts then None else Some(Touch(Touch(db, p, at), q, at))
  }

  /** A post's own version moves, and a fresh check of it is queued. */
  function Marked(db: Db, p: Id, at: int): Db
    requires p in db.posts
  {
    var v := db.posts[p].version + 1;
    db.(posts := db.posts[p := db.posts[p].(version := v)], jobs := Schedule(db.jobs, JobKey(Check, p), v, at, at))
  }

  function PostEdited(db: Db, p: Id, at: int): Option<Db> {
    if p !in db.posts then None else ThreadChanged(Marked(db, p, at), p, at)
  }

  // ---- posts.go ----

  predicate IsMember(db: Db, user: Id) { user in db.members && db.members[user].active }

  predicate HasShownContent(db: Db, user: Id) {
    (exists p <- db.posts :: db.posts[p].user == user && Shown(db.posts[p].status)) ||
    (exists c <- db.comments :: db.comments[c].user == user && Shown(db.comments[c].status))
  }

  function FirstPostStatus(db: Db, user: Id): Status {
    if !db.holdFirstPost || HasShownContent(db, user) || (user in db.members && db.members[user].mod) then Visible
    else Held
  }

  /** Ids of photo rows that are free and distinct, as the primary key demands. */
  predicate FreshImages(db: Db, images: seq<Id>) {
    (forall i <- images :: i !in db.side.images) && (forall j, k | 0 <= j < k < |images| :: images[j] != images[k])
  }

  function WithImages(side: Side, post: Id, comment: Option<Id>, images: seq<Id>): Side {
    side.(images := side.images + map i | i in images :: Image(post, comment))
  }

  function CreatePost(db: Db, id: Id, user: Id, title: string, body: string, images: seq<Id>, at: int): Option<Db> {
    if title == "" || |title| > MAX_TITLE || |body| > MAX_BODY || |images| > MAX_IMAGES then None
    else if !IsMember(db, user) || id in db.posts || !FreshImages(db, images) then None
    else
      var status := FirstPostStatus(db, user);
      Some(db.(
        posts := db.posts[id := Post(user, title, body, status, 0, None, None, None, 1, 1, false, false, None)],
        side := WithImages(db.side, id, None, images).(follows := db.side.follows + {(user, id)}),
        jobs := Schedule(Schedule(db.jobs, JobKey(Check, id), 1, at, at), JobKey(Digest, id), 1, at + QUIET_PERIOD, at),
        fts := if status == Visible then db.fts[id := id] else db.fts))
  }

  /** The numbers of an item's stored earlier versions. */
  function Revisions(side: Side, item: Item): set<nat> {
    set k | k in side.revisions && k.0 == item :: k.1
  }

  /** saveRevision: numbered after the number of versions now stored. */
  function SaveRevision(db: Db, item: Item, at: int): Option<Db> {
    var n := |Revisions(db.side, item)| + 1;
    if (item, n) in db.side.revisions then None
    else Some(db.(side := db.side.(revisions := db.side.revisions[(item, n) := at + REVISION_KEEP])))
  }

  function Retitled(db: Db, id: Id, title: string, body: string): Db
    requires id in db.posts
  {
    db.(posts := db.posts[id := db.posts[id].(title := title, body := body)])
  }

  function EditPost(db: Db, id: Id, title: string, body: string, at: int): Option<Db> {
    if title == "" || |title| > MAX_TITLE || |body| > MAX_BODY then None
    else if id !in db.posts || Gone(db.posts[id].status) then None
    else
      var saved :- SaveRevision(db, Item(APost, id), at);
      if id !in saved.posts then None else
        var edited :- PostEdited(Retitled(saved, id, title, body), id, at);
        Some(if Shown(db.posts[id].status) then edited.(fts := edited.fts[id := id]) else edited)
  }

  /** The comment a reply is attached to: a reply to a reply goes to the top comment. */
  function ReplyParent(db: Db, post: Id, parent: Id): Option<Option<Id>> {
    if parent == 0 then Some(None)
    else if parent !in db.comments || db.comments[parent].post != post then None
    else Some(Some(if db.comments[parent].parent.Some? then db.comments[parent].parent.value else parent))
  }

  function AddCount(db: Db, post: Id, delta: int): Db
    requires post in db.posts
  {
    db.(posts := db.posts[post := db.posts[post].(commentCount := db.posts[post].commentCount + delta)])
  }

  function CreateComment(db: Db, id: Id, post: Id, parent: Id, user: Id, body: string, image: Option<Id>,
                         at: int): Option<Db> {
    var images := if image.Some? then [image.value] else [];
    if (body == "" && image.None?) || |body| > MAX_COMMENT || !IsMember(db, user) then None
    else if post !in db.posts || !Shown(db.posts[post].status) || db.posts[post].locked then None
    else
      var top :- ReplyParent(db, post, parent);
      if id in db.comments || !FreshImages(db, images) then None else
        var added := db.(comments := db.comments[id := Comment(post, top, user, body, Visible, None, 1, false, None)],
                         side := WithImages(db.side, post, Some(id), images));
        var changed :- ThreadChanged(AddCount(added, post, 1), post, at);
        Some(changed.(jobs := Schedule(changed.jobs, JobKey(CheckComment, id), 1, at, at), fts := changed.fts[id := post]))
  }

  function Rewritten(db: Db, id: Id, body: string, at: int): Db
    requires id in db.comments
  {
    var v := db.comments[id].version + 1;
    db.(comments := db.comments[id := db.comments[id].(body := body, version := v)],
        jobs := Schedule(db.jobs, JobKey(CheckComment, id), v, at, at))
  }

  function EditComment(db: Db, id: Id, body: string, at: int): Option<Db> {
    if body == "" || |body| > MAX_COMMENT then None
    else if id !in db.comments || Gone(db.comments[id].status) then None
    else
      var c := db.comments[id];
      var saved :- SaveRevision(db, Item(AComment, id), at);
      if id !in saved.comments then None else
        var changed :- ThreadChanged(Rewritten(saved, id, body, at), c.post, at);
        Some(if Shown(c.status) then changed.(fts := changed.fts[id := c.post]) else changed)
  }

  // ---- items: what is common to posts and comments ----

  predicate Exists(db: Db, item: Item) {
    if item.kind == APost then item.id in db.posts else item.id in db.comments
  }

  function StatusOf(db: Db, item: Item): Status
    requires Exists(db, item)
  {
    if item.kind == APost then db.posts[item.id].status else db.comments[item.id].status
  }

  function ThreadOf(db: Db, item: Item): Id
    requires Exists(db, item)
  {
    if item.kind == APost then item.id else db.comments[item.id].post
  }

  function AuthorOf(db: Db, item: Item): Id
    requires Exists(db, item)
  {
    if item.kind == APost then db.posts[item.id].user else db.comments[item.id].user
  }

  predicate Cleared(db: Db, item: Item)
    requires Exists(db, item)
  {
    if item.kind == APost then db.posts[item.id].aiCleared else db.comments[item.id].aiCleared
  }

  function VersionOf(db: Db, item: Item): nat
    requires Exists(db, item)
  {
    if item.kind == APost then db.posts[item.id].version else db.comments[item.id].version
  }

  function CheckKey(item: Item): JobKey {
    JobKey(if item.kind == APost then Check else CheckComment, item.id)
  }

  function SetStatus(db: Db, item: Item, status: Status, purgeAfter: Option<int>): Db
    requires Exists(db, item)
  {
    if item.kind == APost then
      db.(posts := db.posts[item.id := db.posts[item.id].(status := status, purgeAfter := purgeAfter)])
    else
      db.(comments := db.comments[item.id := db.comments[item.id].(status := status, purgeAfter := purgeAfter)])
  }

  function PurgeOf(db: Db, item: Item): Option<int>
    requires Exists(db, item)
  {
    if item.kind == APost then db.posts[item.id].purgeAfter else db.comments[item.id].purgeAfter
  }

  function SetCleared(db: Db, item: Item): Db
    requires Exists(db, item)
  {
    if item.kind == APost then
      db.(posts := db.posts[item.id := db.posts[item.id].(aiCleared := true)])
    else
      db.(comments := db.comments[item.id := db.comments[item.id].(aiCleared := true)])
  }

  function SoftDelete(db: Db, item: Item, byMod: bool, at: int): Option<Db> {
    if !Exists(db, item) then None
    else if Gone(StatusOf(db, item)) then Some(db)
    else
      var keep := if byMod then MOD_REMOVE_KEEP else AUTHOR_DELETE_KEEP;
      var hidden := SetStatus(db, item, if byMod then Removed else Deleted, Some(at + keep));
      var changed :- ThreadChanged(hidden.(fts := db.fts - {item.id}), ThreadOf(db, item), at);
      if item.kind == AComment && Shown(StatusOf(db, item)) && ThreadOf(db, item) in changed.posts
      then Some(AddCount(changed, ThreadOf(db, item), -1)) else Some(changed)
  }

  function Restore(db: Db, item: Item, at: int): Option<Db> {
    if !Exists(db, item) then None
    else if StatusOf(db, item) == Visible then Some(db)
    else
      var post := ThreadOf(db, item);
      var shown := SetStatus(db, item, Visible, None);
      var changed :- ThreadChanged(shown.(fts := db.fts[item.id := post]), post, at);
      if item.kind == AComment && StatusOf(db, item) != Flagged && post in changed.posts
      then Some(AddCount(changed, post, 1)) else Some(changed)
  }

  // ---- moderation.go ----

  function ChangeStatus(db: Db, item: Item, to: Status, at: int): Option<Db>
    requires Exists(db, item)
  {
    var was := StatusOf(db, item);
    var post := ThreadOf(db, item);
    if was == to then Some(db) else
      var set1 := SetStatus(db, item, to, PurgeOf(db, item));
      var indexed := set1.(fts := if Shown(to) then db.fts[item.id := post] else db.fts - {item.id});
      var counted := if item.kind == AComment && Shown(was) != Shown(to) && post in indexed.posts
                     then AddCount(indexed, post, if Shown(to) then 1 else -1) else indexed;
      ThreadChanged(counted, post, at)
  }

  datatype Verdict = Fine | Borderline | Violation

  function ApplyVerdict(db: Db, item: Item, verdict: Verdict, at: int): Option<Db> {
    if verdict == Fine then Some(db)
    else if !Exists(db, item) then None
    else if Cleared(db, item) || !Shown(StatusOf(db, item)) then Some(db)
    else if verdict == Violation then ChangeStatus(db, item, AutoHidden, at)
    else if StatusOf(db, item) == Flagged then Some(db)
    else ChangeStatus(db, item, Flagged, at)
  }

  function SetCommentCheck(db: Db, id: Id, worker: string, version: nat, verdict: Verdict, at: int): Option<Db> {
    if id !in db.comments then None
    else
      var k := JobKey(CheckComment, id);
      var finished := db.(jobs := Finish(db.jobs, k, worker, version, db.comments[id].version, at));
      if !Accepts(db.jobs, k, worker, version, db.comments[id].version) then Some(finished)
      else ApplyVerdict(finished, Item(AComment, id), verdict, at)
  }

  function Approve(db: Db, item: Item, at: int): Option<Db> {
    if !Exists(db, item) || Gone(StatusOf(db, item)) then None
    else
      var changed :- ChangeStatus(db, item, Visible, at);
      if !Exists(changed, item) then None else
        var cleared := SetCleared(changed, item);
        Some(if StatusOf(db, item) == Held && item.kind == APost
             then cleared.(jobs := Schedule(cleared.jobs, CheckKey(item), VersionOf(cleared, item), at, at))
             else cleared)
  }

  function Report(db: Db, item: Item, user: Id, at: int): Option<Db> {
    if !IsMember(db, user) || !Exists(db, item) || AuthorOf(db, item) == user then None
    else
      var reported := db.(side := db.side.(reports := db.side.reports + {(item, user)}));
      var flagged :- if StatusOf(db, item) == Visible && !Cleared(db, item)
                     then ChangeStatus(reported, item, Flagged, at) else Some(reported);
      Some(flagged.(jobs := Schedule(flagged.jobs, CheckKey(item), VersionOf(db, item), at, at)))
  }

  /** The voting rule: an old enough member with something shown, who is not the author, nor
      the person replied to, nor among those who replied. */
  predicate CanVote(db: Db, item: Item, user: Id, at: int)
    requires Exists(db, item)
  {
    && IsMember(db, user) && db.members[user].since <= at - MEMBER_VOTE_AGE
    && user != AuthorOf(db, item) && HasShownContent(db, user)
    && (item.kind == AComment ==>
          !exists c <- db.comments :: db.comments[c].user == user &&
            (Some(c) == db.comments[item.id].parent || db.comments[c].parent == Some(item.id)))
  }

  function Ballots(side: Side, item: Item, keep: bool): set<(Item, Id)> {
    set v | v in side.flagVotes && v.0 == item && side.flagVotes[v] == keep
  }

  function Vote(db: Db, item: Item, user: Id, keep: bool, at: int): Option<Db> {
    if !Exists(db, item) || StatusOf(db, item) != Flagged || !CanVote(db, item, user, at) then None
    else
      var voted := db.(side := db.side.(flagVotes := db.side.flagVotes[(item, user) := keep]));
      var keeps, hides := |Ballots(voted.side, item, true)|, |Ballots(voted.side, item, false)|;
      if hides >= db.voteThreshold && hides > keeps then ChangeStatus(voted, item, AutoHidden, at)
      else if keeps >= db.voteThreshold then
        var shown :- ChangeStatus(voted, item, Visible, at);
        if Exists(shown, item) then Some(SetCleared(shown, item)) else None
      else Some(voted)
  }

  /** Locking or unlocking a thread. */
  function SetLocked(db: Db, id: Id, on: bool): Option<Db> {
    if id !in db.posts then None else Some(db.(posts := db.posts[id := db.posts[id].(locked := on)]))
  }

  // ---- archive.go, sources.go ----

  datatype ArchiveComment = ArchiveComment(id: Id, ref: string, parentRef: string, body: string, image: Option<Id>)

  /** Where an import has got to: the tables, the comment ids seen so far by reference, and
      whether any comment is new or reads differently. */
  datatype Import = Import(db: Db, ids: map<string, Id>, changed: bool)

  function ImportComment(im: Import, post: Id, cm: ArchiveComment): Option<Import> {
    var db := im.db;
    var parent := if cm.parentRef in im.ids then Some(im.ids[cm.parentRef]) else None;
    var images := if cm.image.Some? then [cm.image.value] else [];
    if cm.ref !in db.commentRefs then
      if cm.id in db.comments || !FreshImages(db, images) then None else
        Some(Import(
          db.(comments := db.comments[cm.id := Comment(post, parent, 0, cm.body, Visible, None, 1, false, Some(cm.ref))],
              commentRefs := db.commentRefs[cm.ref := cm.id],
              side := WithImages(db.side, post, Some(cm.id), images),
              fts := db.fts[cm.id := post]),
          im.ids[cm.ref := cm.id], true))
    else
      var id := db.commentRefs[cm.ref];
      if id !in db.comments then None
      else if !Shown(db.comments[id].status) then
        Some(im.(ids := im.ids[cm.ref := id])) // hidden here: nothing but its id is noted
      else if !FreshImages(db, images) then None
      else
        Some(Import(
          db.(comments := db.comments[id := db.comments[id].(body := cm.body, parent := parent)],
              side := WithImages(db.side, post, Some(id), images),
              fts := db.fts[id := post]),
          im.ids[cm.ref := id], im.changed || db.comments[id].body != cm.body))
  }

  function ImportComments(im: Import, post: Id, cms: seq<ArchiveComment>): Option<Import> {
    if cms == [] then Some(im) else
      var before :- ImportComments(im, post, cms[..|cms| - 1]);
      ImportComment(before, post, cms[|cms| - 1])
  }

  /** A post's photos, replaced wholesale. */
  function ReplaceImages(db: Db, pid: Id, images: seq<Id>): Option<Db> {
    var bare := db.(side := db.side.(images :=
      map i | i in db.side.images && db.side.images[i].post != pid :: db.side.images[i]));
    if FreshImages(bare, images) then Some(bare.(side := WithImages(bare.side, pid, None, images))) else None
  }

  /** The start of an import: the post's row, its photos replaced, its index row. */
  function ImportRow(db: Db, id: Id, ref: string, title: string, body: string, images: seq<Id>): Option<Db> {
    var isNew := ref !in db.postRefs;
    var pid := if isNew then id else db.postRefs[ref];
    if isNew == (pid in db.posts) then None else
      var post := if isNew then Post(0, title, body, Visible, 0, None, None, None, 1, 1, true, false, Some(ref))
                  else db.posts[pid].(title := title, body := body);
      var shown :- ReplaceImages(db.(posts := db.posts[pid := post], postRefs := db.postRefs[ref := pid]), pid, images);
      Some(shown.(fts := shown.fts[pid := pid]))
  }

  /** The comment count, counted afresh. */
  function Recount(db: Db, post: Id): Db
    requires post in db.posts
  {
    db.(posts := db.posts[post := db.posts[post].(commentCount := |ShownComments(db.comments, post)|)])
  }

  function ImportPost(db: Db, id: Id, ref: string, title: string, body: string, images: seq<Id>,
                      cms: seq<ArchiveComment>, at: int): Option<Db> {
    if ref == "" || title == "" then None else
      var isNew := ref !in db.postRefs;
      var pid := if isNew then id else db.postRefs[ref];
      if !isNew && pid in db.posts && !Shown(db.posts[pid].status) then Some(db) // hidden here: nothing to do
      else
        var row :- ImportRow(db, id, ref, title, body, images);
        var im :- ImportComments(Import(row, map[], false), pid, cms);
        if pid !in im.db.posts then None else
          var counted := Recount(im.db, pid);
          if isNew then
            Some(counted.(jobs := Schedule(Schedule(counted.jobs, JobKey(Check, pid), 1, at, at),
                                          JobKey(Digest, pid), 1, at, at)))
          else if pid in db.posts && (db.posts[pid].title != title || db.posts[pid].body != body) then
            PostEdited(counted, pid, at)
          else if im.changed then ThreadChanged(counted, pid, at)
          else Some(counted)
  }

  function RequestArchiveRemoval(db: Db, id: Id, at: int): Option<Db> {
    if id !in db.posts || db.posts[id].originRef.None? then None
    else if Gone(db.posts[id].status) then Some(db)
    else
      var removed := SetStatus(db, Item(APost, id), Removed, Some(at + MOD_REMOVE_KEEP));
      ThreadChanged(removed.(fts := map i | i in db.fts && db.fts[i] != id :: db.fts[i]), id, at)
  }

  // ---- links.go ----

  /** The link note on host that points at other, if there is one. */
  function FindNote(notes: map<Id, NoteRow>, sources: seq<NoteSource>, group: Id, host: Id, other: Id): Option<Id> {
    if sources == [] then None
    else if sources[0].group == group && sources[0].post == other
            && sources[0].note in notes && notes[sources[0].note].host == host
    then Some(sources[0].note)
    else FindNote(notes, sources[1..], group, host, other)
  }

  function LinkNote(db: Db, group: Id, host: Id, other: Id, id: Id, ext: nat, at: int): Option<Db> {
    var found := FindNote(db.notes, db.sources, group, host, other);
    var n := if found.Some? then found.value else id;
    if found.Some? then
      if n !in db.notes then None else
        var note := db.notes[n].(active := true, removedBy := None, stale := true,
                                 ext := if db.notes[n].ext < ext then ext else db.notes[n].ext);
        var linked := db.(notes := db.notes[n := note]);
        Some(linked.(jobs := Schedule(db.jobs, JobKey(Note, n), NoteVersion(linked, n), at, at)))
    else if n in db.notes || NoteSource(n, group, other) in db.sources then None
    else
      var linked := db.(notes := db.notes[n := NoteRow(host, "", true, true, None, ext)],
                        sources := db.sources + [NoteSource(n, group, other)]);
      Some(linked.(jobs := Schedule(db.jobs, JobKey(Note, n), NoteVersion(linked, n), at, at)))
  }

  /** Whether two posts can be linked; if not, that is the caller's to put right. */
  predicate Linkable(db: Db, a: Id, b: Id) {
    a != b && a in db.posts && b in db.posts && Shown(db.posts[a].status) && Shown(db.posts[b].status)
  }

  function AddLink(db: Db, a: Id, b: Id, auto: bool, noteA: Id, noteB: Id, at: int): Option<Db> {
    if !Linkable(db, a, b) then None
    else
      var key := if a < b then (a, b) else (b, a);
      if key in db.links && (db.links[key] || auto) then Some(db) // nothing to add, or not for a machine to add
      else
        var one :- LinkNote(db.(links := db.links[key := true]), db.group, a, b, noteA, 0, at);
        LinkNote(one, db.group, b, a, noteB, 0, at)
  }

  function RemoveLink(db: Db, a: Id, b: Id, who: Id): Option<Db> {
    var key := if a < b then (a, b) else (b, a);
    if key !in db.links then None else
      Some(db.(links := db.links[key := false],
               notes := map n | n in db.notes ::
                 if exists s <- db.sources ::
                      s.note == n && ((db.notes[n].host == a && s.post == b) || (db.notes[n].host == b && s.post == a))
                 then db.notes[n].(active := false, removedBy := Some(who)) else db.notes[n]))
  }

  /** One match a check found, with the ids to use for its notes. */
  datatype CheckLink = CheckLink(other: Id, noteHere: Id, noteThere: Id)

  /** A match that cannot be linked (it has gone meanwhile) is skipped; a note id that is taken
      fails the command. */
  function AddLinks(db: Db, post: Id, links: seq<CheckLink>, at: int): Option<Db> {
    if links == [] then Some(db) else
      var before :- AddLinks(db, post, links[..|links| - 1], at);
      var l := links[|links| - 1];
      if !Linkable(before, post, l.other) then Some(before)
      else AddLink(before, post, l.other, true, l.noteHere, l.noteThere, at)
  }

  function SetCheck(db: Db, id: Id, worker: string, version: nat, verdict: Verdict, links: seq<CheckLink>,
                    at: int): Option<Db> {
    if id !in db.posts then None
    else
      var k := JobKey(Check, id);
      var finished := db.(jobs := Finish(db.jobs, k, worker, version, db.posts[id].version, at));
      if !Accepts(db.jobs, k, worker, version, db.posts[id].version) then Some(finished)
      else
        var judged :- ApplyVerdict(finished, Item(APost, id), verdict, at);
        if verdict == Violation || !Shown(db.posts[id].status) then Some(judged)
        else AddLinks(judged, id, links, at)
  }

  function Cut(text: string): string {
    if |text| > MAX_NOTE then text[..MAX_NOTE] else text
  }

  function SetNote(db: Db, n: Id, worker: string, version: nat, text: string, noChange: bool, at: int): Option<Db> {
    var k := JobKey(Note, n);
    var finished := db.(jobs := Finish(db.jobs, k, worker, version, NoteVersion(db, n), at));
    if !Accepts(db.jobs, k, worker, version, NoteVersion(db, n)) then Some(finished)
    else if n !in db.notes then None
    else if (noChange && db.notes[n].text != "") || Cut(text) == "" then
      Some(finished.(notes := db.notes[n := db.notes[n].(stale := false)]))
    else Some(finished.(notes := db.notes[n := db.notes[n].(text := Cut(text), stale := false)]))
  }

  function SetDigest(db: Db, id: Id, worker: string, version: nat, digest: string, at: int): Option<Db> {
    if id !in db.posts then None
    else
      var k := JobKey(Digest, id);
      var finished := db.(jobs := Finish(db.jobs, k, worker, version, db.posts[id].threadVersion, at));
      if !Accepts(db.jobs, k, worker, version, db.posts[id].threadVersion) then Some(finished)
      else Some(finished.(posts := db.posts[id := db.posts[id].(digest :=
                    if Cut(digest) == "" then None else Some(Cut(digest)))]))
  }

  function MarkSisterStale(db: Db, n: Id, version: nat, at: int): Option<Db> {
    if n !in db.notes || !db.notes[n].active || db.notes[n].ext >= version then Some(db)
    else
      var marked := db.(notes := db.notes[n := db.notes[n].(ext := version, stale := true)]);
      Some(marked.(jobs := Schedule(db.jobs, JobKey(Note, n), NoteVersion(marked, n), at, at)))
  }

  function MoveUnder(db: Db, id: Id, under: Id, at: int): Option<Db> {
    if under >= id || id !in db.posts || under !in db.posts then None
    else if !Shown(db.posts[id].status) || !Shown(db.posts[under].status) then None
    else if db.posts[id].continues.Some? || db.posts[under].continues.Some? then None
    else if exists p <- db.posts :: db.posts[p].continues == Some(id) then None
    else ThreadChanged(db.(posts := db.posts[id := db.posts[id].(continues := Some(under))]), id, at)
  }

  function MoveOut(db: Db, id: Id, at: int): Option<Db> {
    if id !in db.posts then None
    else if db.posts[id].continues.None? then Some(db)
    else
      // Telling comes before cutting the link, so that it reaches both threads.
      var changed :- ThreadChanged(db, id, at);
      if id !in changed.posts then None
      else Some(changed.(posts := changed.posts[id := changed.posts[id].(continues := None)]))
  }

  // ---- purge.go ----

  predicate Expired(purgeAfter: Option<int>, before: int) {
    purgeAfter.Some? && purgeAfter.value < before
  }

  /** Whether an item is among those still there. */
  predicate Stays(posts: set<Id>, comments: set<Id>, item: Item) {
    if item.kind == APost then item.id in posts else item.id in comments
  }

  function KeptRevisions(rows: map<(Item, nat), int>, posts: set<Id>, comments: set<Id>,
                         before: int): map<(Item, nat), int> {
    map k | k in rows && rows[k] >= before && Stays(posts, comments, k.0) :: rows[k]
  }

  function KeptImages(rows: map<Id, Image>, posts: set<Id>, comments: set<Id>): map<Id, Image> {
    map i | i in rows && rows[i].post in posts && (rows[i].comment.Some? ==> rows[i].comment.value in comments) :: rows[i]
  }

  function KeptPairs(rows: set<(Item, Id)>, posts: set<Id>, comments: set<Id>): set<(Item, Id)> {
    set r | r in rows && Stays(posts, comments, r.0)
  }

  function KeptBallots(rows: map<(Item, Id), bool>, posts: set<Id>, comments: set<Id>): map<(Item, Id), bool> {
    map v | v in rows && Stays(posts, comments, v.0) :: rows[v]
  }

  function KeptNotices(rows: map<Id, Notice>, posts: set<Id>, before: int): map<Id, Notice> {
    map n | n in rows && (rows[n].post == 0 || rows[n].post in posts)
            && !(rows[n].readAt.Some? && rows[n].readAt.value < before - 90 * DAY)
            && rows[n].createdAt >= before - 180 * DAY :: rows[n]
  }

  function PurgeSide(side: Side, posts: set<Id>, comments: set<Id>, before: int): Side {
    Side(
      KeptRevisions(side.revisions, posts, comments, before),
      KeptImages(side.images, posts, comments),
      (set f | f in side.follows && f.1 in posts),
      KeptPairs(side.reports, posts, comments),
      KeptBallots(side.flagVotes, posts, comments),
      KeptPairs(side.votes, posts, comments),
      map n | n in side.nudges && side.nudges[n] in posts :: side.nudges[n],
      (set t | t in side.postTopics && t.0 in posts),
      (set f | f in side.faqSources && f.1 in posts),
      (set l | l in side.sourceLinks && (l.1 == 0 || l.1 in posts)),
      (set l | l in side.sisterLinks && l.0 in posts),
      KeptNotices(side.notices, posts, before),
      map c | c in side.faqComments && !Expired(side.faqComments[c], before) :: side.faqComments[c],
      map f | f in side.feedback && side.feedback[f] >= before - 180 * DAY :: side.feedback[f])
  }

  predicate SourceStays(s: NoteSource, notes: map<Id, NoteRow>, posts: set<Id>, group: Id) {
    (s.group == group ==> s.post in posts) && (s.note in notes ==> notes[s.note].host in posts)
  }

  function KeepSources(sources: seq<NoteSource>, notes: map<Id, NoteRow>, posts: set<Id>, group: Id): seq<NoteSource> {
    if sources == [] then []
    else if SourceStays(sources[0], notes, posts, group) then
      [sources[0]] + KeepSources(sources[1..], notes, posts, group)
    else KeepSources(sources[1..], notes, posts, group)
  }

  predicate HasSource(sources: seq<NoteSource>, n: Id) {
    exists s <- sources :: s.note == n
  }

  /** Comments that expired, and comments on posts that expired, go. */
  function KeptComments(posts: map<Id, Post>, comments: map<Id, Comment>, before: int): map<Id, Comment> {
    map c | c in comments && !Expired(comments[c].purgeAfter, before) &&
            !(comments[c].post in posts && Expired(posts[comments[c].post].purgeAfter, before)) :: comments[c]
  }

  function KeptPosts(posts: map<Id, Post>, before: int): map<Id, Post> {
    map p | p in posts && !Expired(posts[p].purgeAfter, before) :: posts[p]
  }

  function CutLoose(posts: map<Id, Post>): map<Id, Post> {
    map p | p in posts ::
      if posts[p].continues.Some? && posts[p].continues.value !in posts then posts[p].(continues := None) else posts[p]
  }

  function KeptNotes(notes: map<Id, NoteRow>, sources: seq<NoteSource>, posts: set<Id>): map<Id, NoteRow> {
    map n | n in notes && notes[n].host in posts && HasSource(sources, n) :: notes[n]
  }

  predicate JobStays(k: JobKey, posts: set<Id>, comments: set<Id>, notes: set<Id>) {
    match k.kind
    case Check | Digest | Summary => k.ref in posts
    case Note => k.ref in notes
    case CheckComment => k.ref in comments
  }

  function KeptJobs(jobs: Queue, posts: set<Id>, comments: set<Id>, notes: set<Id>): Queue {
    map k | k in jobs && JobStays(k, posts, comments, notes) :: jobs[k]
  }

  /** Rows of an index that point at something still there. */
  function KeptRows<K>(rows: map<K, Id>, ids: set<Id>): map<K, Id> {
    map k | k in rows && rows[k] in ids :: rows[k]
  }

  function KeptLinks(links: map<(Id, Id), bool>, posts: set<Id>): map<(Id, Id), bool> {
    map l | l in links && l.0 in posts && l.1 in posts :: links[l]
  }

  function PurgeGroup(db: Db, before: int): Db {
    var comments := KeptComments(db.posts, db.comments, before);
    var posts := KeptPosts(db.posts, before);
    var sources := KeepSources(db.sources, db.notes, posts.Keys, db.group);
    var notes := KeptNotes(db.notes, sources, posts.Keys);
    db.(
      comments := comments,
      posts := CutLoose(posts),
      side := PurgeSide(db.side, posts.Keys, comments.Keys, before),
      fts := KeptRows(db.fts, posts.Keys),
      links := KeptLinks(db.links, posts.Keys),
      sources := sources,
      notes := notes,
      jobs := KeptJobs(db.jobs, posts.Keys, comments.Keys, notes.Keys),
      postRefs := KeptRows(db.postRefs, posts.Keys),
      commentRefs := KeptRows(db.commentRefs, comments.Keys))
  }
}
