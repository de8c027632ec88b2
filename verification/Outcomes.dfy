/**
 What accepted AI results, moves of threads, locks and removal requests leave
 (internal/cmd/links.go, jobs.go, posts.go, archive.go).
 */
module Outcomes {
  import opened Types
  import opened Jobs
  import opened Tables
  import opened Commands
  import opened Content
  import opened Versions
  import opened IndexFree
  import opened OldVersions
  import opened Effects

  // ---- AI results ----

  /** Long texts are cut after 1200 characters. */
  ghost predicate CutTo(text: string, stored: string) {
    stored <= text && |stored| == if |text| < 1200 then |text| else 1200
  }

  lemma CutIs(text: string)
    ensures CutTo(text, Cut(text)) && (Cut(text) == "" <==> text == "")
  {
  }

  /** Who holds a job and read the version it is asked for closes it; who holds it but read another gives it
      back; nobody else touches it. */
  ghost predicate Handed(was: Queue, now: Queue, k: JobKey, worker: string, version: nat, current: nat, at: int) {
    && (forall j | j != k :: Find(now, j) == Find(was, j))
    && if !HeldBy(was, k, worker) then now == was
       else k in now && now[k].claimedBy.None? && now[k].leaseUntil.None? && now[k].refVersion == was[k].refVersion &&
            now[k].doneAt == (if version == current then Some(at) else was[k].doneAt) &&
            now[k].lastRunAt == (if version == current then Some(at) else was[k].lastRunAt)
  }

  lemma FinishHands(q: Queue, k: JobKey, worker: string, version: nat, current: nat, at: int)
    ensures Handed(q, Finish(q, k, worker, version, current, at), k, worker, version, current, at)
  {
  }

  function NoneIfEmpty(text: string, cut: string): Option<string> {
    if text == "" then None else Some(cut)
  }

  /** A digest is stored if its worker holds the job and read the thread's current version; an empty one
      clears what there was. */
  lemma SetDigestDoes(db: Db, id: Id, worker: string, version: nat, digest: string, at: int)
    ensures var r := SetDigest(db, id, worker, version, digest, at);
            && (r.None? <==> id !in db.posts)
            && (r.Some? ==>
                  var current, p := db.posts[id].threadVersion, db.posts[id];
                  && Handed(db.jobs, r.value.jobs, DigestKey(id), worker, version, current, at)
                  && r.value == db.(posts := r.value.posts, jobs := r.value.jobs)
                  && if HeldBy(db.jobs, DigestKey(id), worker) && version == current
                     then exists cut :: CutTo(digest, cut) && r.value.posts == db.posts[id := p.(digest := NoneIfEmpty(digest, cut))]
                     else r.value.posts == db.posts)
  {
    if id in db.posts {
      FinishHands(db.jobs, DigestKey(id), worker, version, db.posts[id].threadVersion, at);
      CutIs(digest);
      hide Finish, Cut, CutTo, Handed;
    }
  }

  function NoteWith(note: NoteRow, text: string, noChange: bool, cut: string): NoteRow {
    note.(stale := false, text := if text == "" || (noChange && note.text != "") then note.text else cut)
  }

  /** A note's text likewise; "no change", or an empty text, leaves the text there was. Either way the note is
      no longer stale. */
  lemma SetNoteDoes(db: Db, n: Id, worker: string, version: nat, text: string, noChange: bool, at: int)
    ensures var r, k, current := SetNote(db, n, worker, version, text, noChange, at), JobKey(Note, n), NoteVersion(db, n);
            var accepted := HeldBy(db.jobs, k, worker) && version == current;
            && (r.None? <==> accepted && n !in db.notes)
            && (r.Some? ==>
                  && Handed(db.jobs, r.value.jobs, k, worker, version, current, at)
                  && r.value == db.(notes := r.value.notes, jobs := r.value.jobs)
                  && if !accepted then r.value.notes == db.notes
                     else exists cut ::
                       CutTo(text, cut) && r.value.notes == db.notes[n := NoteWith(db.notes[n], text, noChange, cut)])
  {
    FinishHands(db.jobs, JobKey(Note, n), worker, version, NoteVersion(db, n), at);
    CutIs(text);
    if n in db.notes { assert NoteWith(db.notes[n], text, noChange, Cut(text)) == Noted(db.notes[n], text, noChange); }
    SetNoteIs(db, n, worker, version, text, noChange, at);
    hide SetNote, Finish, Cut, CutTo, Handed, NoteVersion, NoteWith, Noted;
  }

  /** News of a sister thread reaches an active note that carries an older version. */
  lemma MarkSisterStaleDoes(db: Db, n: Id, version: nat, at: int)
    ensures var r := MarkSisterStale(db, n, version, at);
            && r.Some?
            && if n in db.notes && db.notes[n].active && db.notes[n].ext < version
               then r.value.notes == db.notes[n := db.notes[n].(ext := version, stale := true)] &&
                    Open(r.value.jobs, JobKey(Note, n), NoteVersion(r.value, n)) && r.value.posts == db.posts
               else r.value == db
  {
    hide SumSources;
  }

  // ---- Summaries ----

  /** A thread of ten comments or more that is told has its summary queued too. */
  ghost predicate SummaryTold(was: Queue, now: Queue, p: Post, p': Post, k: JobKey) {
    if p.commentCount >= 10 then Open(now, k, p'.threadVersion) else Find(now, k) == Find(was, k)
  }

  lemma TouchSummary(db: Db, p: Id, at: int, q: Id)
    requires p in db.posts
    ensures var r, k := Touch(db, p, at), JobKey(Summary, q);
            if q == p then SummaryTold(db.jobs, r.jobs, db.posts[p], r.posts[p], k)
            else Find(r.jobs, k) == Find(db.jobs, k)
  {
    hide NoteVersion, CitingNotes, MarkStale;
  }

  /** The summaries of the threads that are told are queued, if they have ten comments; no others are. */
  lemma ThreadChangedSummaries(db: Db, p: Id, at: int, q: Id)
    requires ThreadChanged(db, p, at).Some? && q in db.posts && db.posts[p].continues != Some(p)
    ensures var r, k := ThreadChanged(db, p, at).value, JobKey(Summary, q);
            q in r.posts &&
            if q in Threads(db.posts, p) then SummaryTold(db.jobs, r.jobs, db.posts[q], r.posts[q], k)
            else Find(r.jobs, k) == Find(db.jobs, k)
  {
    TouchSummary(db, p, at, q);
    TouchPosts(db, p, at);
    if db.posts[p].continues.Some? {
      var under := db.posts[p].continues.value;
      TouchPosts(Touch(db, p, at), under, at);
      TouchSummary(Touch(db, p, at), under, at, q);
    }
    hide Touch;
  }

  // ---- Moving a thread under another ----

  lemma TellsFrom(db: Db, put: Db, r: Db, id: Id, b: set<Id>)
    requires id in db.posts && id in put.posts && put.posts == db.posts[id := put.posts[id]] && put.jobs == db.jobs
    requires put.posts[id].threadVersion == db.posts[id].threadVersion && put.posts[id].digest == db.posts[id].digest
    requires Tells(put.posts, put.jobs, r.posts, r.jobs, b)
    ensures Tells(db.posts, db.jobs, r.posts, r.jobs, b)
  {
    forall q | q in db.posts ensures q in r.posts && ToldOne(db.posts, db.jobs, r.posts, r.jobs, q, q in b) {
      assert ToldOne(put.posts, put.jobs, r.posts, r.jobs, q, q in b);
    }
  }

  /** A shown post goes under an earlier shown one, if neither is an update and it has none itself. */
  predicate CanMove(db: Db, id: Id, under: Id) {
    && under < id && id in db.posts && under in db.posts && Shown(db.posts[id].status) && Shown(db.posts[under].status)
    && db.posts[id].continues.None? && db.posts[under].continues.None?
    && forall p <- db.posts :: db.posts[p].continues != Some(id)
  }

  lemma MoveUnderRefusedIff(db: Db, id: Id, under: Id, at: int)
    ensures MoveUnder(db, id, under, at).None? <==> !CanMove(db, id, under)
  {
    hide Touch;
  }

  /** It becomes an update of that post, and both threads are told. */
  lemma MoveUnderDoes(db: Db, id: Id, under: Id, at: int)
    requires MoveUnder(db, id, under, at).Some?
    ensures var r := MoveUnder(db, id, under, at).value;
            && id in db.posts && Content.SamePosts(db.posts[id := db.posts[id].(continues := Some(under))], r.posts)
            && r.comments == db.comments && r.side == db.side && Tells(db.posts, db.jobs, r.posts, r.jobs, {id, under})
  {
    hide ThreadChanged, Tells, Content.SamePosts;
    var put := db.(posts := db.posts[id := db.posts[id].(continues := Some(under))]);
    ToldRest(put, id, at);
    ThreadChangedTells(put, id, at);
    assert Threads(put.posts, id) == {id, under};
    TellsFrom(db, put, MoveUnder(db, id, under, at).value, id, {id, under});
  }

  /** An update that moves out stands on its own, and both threads are told; what is none stays. */
  lemma MoveOutDoes(db: Db, id: Id, at: int)
    requires ContentOk(db)
    ensures var r := MoveOut(db, id, at);
            && (r.None? <==> id !in db.posts)
            && (id in db.posts ==>
                  match db.posts[id].continues
                  case None => r.value == db
                  case Some(under) =>
                    && Content.SamePosts(db.posts[id := db.posts[id].(continues := None)], r.value.posts)
                    && r.value.comments == db.comments && r.value.side == db.side
                    && Tells(db.posts, db.jobs, r.value.posts, r.value.jobs, {id, under}))
  {
    if id in db.posts && db.posts[id].continues.Some? {
      MovedOut(db, id, at);
      hide ContentOk, MoveOut, Tells, Content.SamePosts;
    }
  }

  lemma MovedOut(db: Db, id: Id, at: int)
    requires ContentOk(db) && id in db.posts && db.posts[id].continues.Some?
    ensures var r := MoveOut(db, id, at);
            && r.Some? && Content.SamePosts(db.posts[id := db.posts[id].(continues := None)], r.value.posts)
            && r.value.comments == db.comments && r.value.side == db.side
            && Tells(db.posts, db.jobs, r.value.posts, r.value.jobs, {id, db.posts[id].continues.value})
  {
    assert UpdatesOneDeep(db.posts);
    hide ContentOk, UpdatesOneDeep, ThreadChanged, Tells, MoveOut;
    CanBeTold(db, id, at);
    MoveOutIs(db, id, at);
    var told := ThreadChanged(db, id, at).value;
    ToldRest(db, id, at);
    ThreadChangedTells(db, id, at);
    CutTells(db, told, id, Threads(db.posts, id));
    CutSame(db.posts, told.posts, id);
    assert Threads(db.posts, id) == {id, db.posts[id].continues.value};
    hide Threads, Content.SamePosts;
  }

  lemma CutSame(posts: Posts, told: Posts, id: Id)
    requires id in posts && id in told && Content.SamePosts(posts, told)
    ensures Content.SamePosts(posts[id := posts[id].(continues := None)], told[id := told[id].(continues := None)])
  {
  }

  lemma MoveOutIs(db: Db, id: Id, at: int)
    requires id in db.posts && db.posts[id].continues.Some? && ThreadChanged(db, id, at).Some?
    ensures var told := ThreadChanged(db, id, at).value;
            id in told.posts && MoveOut(db, id, at) == Some(told.(posts := told.posts[id := told.posts[id].(continues := None)]))
  {
    ToldRest(db, id, at);
    hide ThreadChanged;
  }

  lemma CutTells(db: Db, told: Db, id: Id, b: set<Id>)
    requires id in told.posts && Tells(db.posts, db.jobs, told.posts, told.jobs, b)
    ensures Tells(db.posts, db.jobs, told.posts[id := told.posts[id].(continues := None)], told.jobs, b)
  {
    var posts := told.posts[id := told.posts[id].(continues := None)];
    forall q | q in db.posts ensures q in posts && ToldOne(db.posts, db.jobs, posts, told.jobs, q, q in b) {
      assert ToldOne(db.posts, db.jobs, told.posts, told.jobs, q, q in b);
    }
  }

  // ---- Locks and removal requests ----

  lemma SetLockedDoes(db: Db, id: Id, on: bool)
    ensures SetLocked(db, id, on) ==
            if id in db.posts then Some(db.(posts := db.posts[id := db.posts[id].(locked := on)])) else None
  {
  }

  function RemovedUntil(posts: Posts, id: Id, until: int): Posts
    requires id in posts
  {
    posts[id := posts[id].(status := Removed, purgeAfter := Some(until))]
  }

  /** An imported post that its author wants gone is removed for 90 days, with all its thread's index rows. */
  lemma RequestArchiveRemovalDoes(db: Db, id: Id, at: int)
    requires ContentOk(db)
    ensures var r := RequestArchiveRemoval(db, id, at);
            && (r.None? <==> id !in db.posts || db.posts[id].originRef.None?)
            && (r.Some? ==>
                  if Gone(db.posts[id].status) then r.value == db
                  else
                    && Content.SamePosts(RemovedUntil(db.posts, id, at + 90 * 86400), r.value.posts)
                    && r.value.comments == db.comments && r.value.side == db.side
                    && (forall i :: i in r.value.fts <==> i in db.fts && db.fts[i] != id)
                    && (forall i <- r.value.fts :: r.value.fts[i] == db.fts[i]))
  {
    if id in db.posts && db.posts[id].originRef.Some? && !Gone(db.posts[id].status) {
      RemovedForGood(db, id, at);
      hide ContentOk, RequestArchiveRemoval, Content.SamePosts;
    }
  }

  lemma RemovedForGood(db: Db, id: Id, at: int)
    requires ContentOk(db) && id in db.posts && db.posts[id].originRef.Some? && !Gone(db.posts[id].status)
    ensures var r := RequestArchiveRemoval(db, id, at);
            && r.Some?
            && Content.SamePosts(RemovedUntil(db.posts, id, at + 90 * 86400), r.value.posts)
            && r.value.comments == db.comments && r.value.side == db.side
            && (forall i :: i in r.value.fts <==> i in db.fts && db.fts[i] != id)
            && (forall i <- r.value.fts :: r.value.fts[i] == db.fts[i])
  {
    assert UpdatesOneDeep(db.posts);
    RemovalIs(db, id, at);
    var put := WithoutThread(db, id, at);
    WithoutThreadRows(db, id, at);
    hide ContentOk, ThreadChanged, Content.SamePosts, UpdatesOneDeep, RequestArchiveRemoval, WithoutThread;
    CanBeTold(put, id, at);
    ToldRest(put, id, at);
  }

  function WithoutThread(db: Db, id: Id, at: int): Db
    requires id in db.posts
  {
    db.(posts := db.posts[id := db.posts[id].(status := Removed, purgeAfter := Some(at + 90 * 86400))],
        fts := map i | i in db.fts && db.fts[i] != id :: db.fts[i])
  }

  lemma WithoutThreadRows(db: Db, id: Id, at: int)
    requires id in db.posts && UpdatesOneDeep(db.posts)
    ensures var put := WithoutThread(db, id, at);
            put.posts == db.posts[id := db.posts[id].(status := Removed, purgeAfter := Some(at + 90 * 86400))] &&
            put.comments == db.comments && put.side == db.side && UpdatesOneDeep(put.posts) &&
            (forall i :: i in put.fts <==> i in db.fts && db.fts[i] != id) &&
            (forall i <- put.fts :: put.fts[i] == db.fts[i])
  {
    UpdatesDependOnLinks(db.posts, WithoutThread(db, id, at).posts);
    hide UpdatesOneDeep;
  }

  lemma RemovalIs(db: Db, id: Id, at: int)
    requires id in db.posts && db.posts[id].originRef.Some? && !Gone(db.posts[id].status)
    ensures RequestArchiveRemoval(db, id, at) == ThreadChanged(WithoutThread(db, id, at), id, at)
  {
    hide ThreadChanged;
  }
}
