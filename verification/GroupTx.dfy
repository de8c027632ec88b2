/**
 A group's file and the commands on it, statement by statement as they run: each works on a
 transaction and commits it, or leaves the file alone. Every method is proved to do what the
 function of the same name says (internal/cmd/posts.go, jobs.go, moderation.go, archive.go,
 links.go, purge.go).
 */
module GroupTx {
  import opened Types
  import opened Jobs
  import opened Tables
  import C = Commands

  // ---- Steps within a transaction ----

  /** schedule: insert the job, or bring the one that is there forward. */
  method ScheduleJob(tx: Db, k: JobKey, version: nat, runAfter: int, at: int) returns (r: Db)
    ensures r == tx.(jobs := Jobs.Schedule(tx.jobs, k, version, runAfter, at))
  {
    if k !in tx.jobs {
      return tx.(jobs := tx.jobs[k := Job(version, runAfter, at, 0, None, None, None, None, None)]);
    }
    var j := tx.jobs[k];
    var waiting := j.doneAt.None?;
    if waiting {
      j := j.(runAfter := Min(runAfter, j.pendingSince + MAX_WAIT));
    } else {
      var last := if j.lastRunAt.Some? then j.lastRunAt.value else 0;
      j := j.(runAfter := Max(runAfter, last + MIN_RERUN), pendingSince := at);
    }
    j := j.(refVersion := version, attempts := 0, lastError := None, doneAt := None);
    r := tx.(jobs := tx.jobs[k := j]);
  }

  /** Marking notes stale changes no note's version. */
  lemma MarkedVersion(tx: Db, ns: set<Id>, n: Id)
    requires n in tx.notes
    ensures NoteVersion(tx.(notes := C.MarkStale(tx.notes, ns)), n) ==
            SumSources(tx.posts, tx.sources, n) + tx.notes[n].ext
    ensures n in C.MarkStale(tx.notes, ns) && C.MarkStale(tx.notes, ns)[n].ext == tx.notes[n].ext
  {
  }

  lemma MarkOne(notes: map<Id, NoteRow>, done: set<Id>, n: Id)
    requires n in notes && n !in done
    ensures var was := C.MarkStale(notes, done);
            was[n := was[n].(stale := true)] == C.MarkStale(notes, done + {n})
  {
  }

  lemma RequeueOne(db: Db, done: set<Id>, n: Id, version: nat, at: int)
    requires n !in done && version == NoteVersion(db, n)
    ensures var k := JobKey(Note, n); var was := C.RequeueNotes(db, done, at);
            was[k := Scheduled(Find(was, k), version, at + QUIET_PERIOD, at)] == C.RequeueNotes(db, done + {n}, at)
  {
    hide NoteVersion, Scheduled;
  }

  lemma NoneRequeued(db: Db, at: int)
    ensures C.RequeueNotes(db, {}, at) == db.jobs
  {
  }

  lemma NoneMarked(notes: map<Id, NoteRow>)
    ensures C.MarkStale(notes, {}) == notes
  {
  }

  /** The notes written from a thread are marked stale and queued, one by one. */
  method RequeueEach(tx: Db, citing: set<Id>, at: int) returns (notes: map<Id, NoteRow>, jobs: Queue)
    requires citing <= tx.notes.Keys
    ensures notes == C.MarkStale(tx.notes, citing)
    ensures jobs == C.RequeueNotes(tx.(notes := C.MarkStale(tx.notes, citing)), citing, at)
  {
    ghost var marked, done: set<Id> := tx.(notes := C.MarkStale(tx.notes, citing)), {};
    notes, jobs := tx.notes, tx.jobs;
    var todo := citing;
    NoneRequeued(marked, at);
    NoneMarked(tx.notes);
    hide NoteVersion, C.RequeueNotes, C.MarkStale, Scheduled, SumSources;
    while todo != {}
      invariant todo == citing - done && done <= citing
      invariant notes == C.MarkStale(tx.notes, done)
      invariant jobs == C.RequeueNotes(marked, done, at)
      decreases |todo|
    {
      var n :| n in todo;
      todo := todo - {n};
      MarkedVersion(tx, citing, n);
      MarkedVersion(tx, done, n);
      var nv := SumSources(tx.posts, tx.sources, n) + notes[n].ext;
      notes := notes[n := notes[n].(stale := true)];
      MarkOne(tx.notes, done, n);
      jobs := jobs[JobKey(Note, n) := Scheduled(Find(jobs, JobKey(Note, n)), nv, at + QUIET_PERIOD, at)];
      RequeueOne(marked, done, n, nv, at);
      done := done + {n};
    }
    assert done == citing;
  }

  /** A post whose version has moved and whose digest is queued. */
  ghost function Bumped(tx: Db, p: Id, at: int): Db
    requires p in tx.posts
  {
    var v := tx.posts[p].threadVersion + 1;
    tx.(posts := tx.posts[p := tx.posts[p].(threadVersion := v)], jobs := C.RequeueDigest(tx, p, v, at))
  }

  lemma TouchIs(tx: Db, p: Id, at: int)
    requires p in tx.posts
    ensures var bumped, citing := Bumped(tx, p, at), C.CitingNotes(tx, p);
            C.Touch(tx, p, at) == bumped.(notes := C.MarkStale(tx.notes, citing),
                                          jobs := C.RequeueNotes(bumped.(notes := C.MarkStale(tx.notes, citing)), citing, at)) &&
            bumped.notes == tx.notes && C.CitingNotes(bumped, p) == citing && citing <= tx.notes.Keys
  {
  }

  /** The first statements of threadChanged: the version, and the jobs of the thread itself. */
  method Bump(tx: Db, p: Id, at: int) returns (r: Db)
    requires p in tx.posts
    ensures r == Bumped(tx, p, at)
  {
    var v := tx.posts[p].threadVersion + 1;
    r := tx.(posts := tx.posts[p := tx.posts[p].(threadVersion := v)]);
    r := ScheduleJob(r, JobKey(Digest, p), v, at + QUIET_PERIOD, at);
    if tx.posts[p].commentCount >= SUMMARY_MIN {
      r := ScheduleJob(r, JobKey(Summary, p), v, at + QUIET_PERIOD, at);
    }
  }

  /** threadChanged for one of the posts a thread is made of. */
  method Touch(tx: Db, p: Id, at: int) returns (r: Db)
    requires p in tx.posts
    ensures r == C.Touch(tx, p, at)
  {
    TouchIs(tx, p, at);
    hide C.RequeueNotes, C.MarkStale, Bumped, C.Touch;
    r := Bump(tx, p, at);
    var citing := set n | n in r.notes && r.notes[n].active && r.notes[n].host != p && NoteSource(n, r.group, p) in r.sources;
    assert citing == C.CitingNotes(r, p);
    var notes, jobs := RequeueEach(r, citing, at);
    r := r.(notes := notes, jobs := jobs);
  }

  /** Each of these threads touched in turn. */
  ghost function TouchEach(tx: Db, ids: seq<Id>, at: int): Option<Db> {
    if ids == [] then Some(tx) else
      var before :- TouchEach(tx, ids[..|ids| - 1], at);
      if ids[|ids| - 1] in before.posts then Some(C.Touch(before, ids[|ids| - 1], at)) else None
  }

  lemma ThreadChangedTouchesEach(tx: Db, p: Id, at: int)
    requires p in tx.posts
    ensures C.ThreadChanged(tx, p, at) ==
            TouchEach(tx, if tx.posts[p].continues.Some? then [p, tx.posts[p].continues.value] else [p], at)
  {
    assert C.Touch(tx, p, at).posts.Keys == tx.posts.Keys;
    hide C.Touch;
    assert TouchEach(tx, [p], at) == Some(C.Touch(tx, p, at)) by { assert [p][..0] == []; }
    if tx.posts[p].continues.Some? {
      assert [p, tx.posts[p].continues.value][..1] == [p];
    }
  }

  /** threadChanged. */
  method ThreadChanged(tx: Db, p: Id, at: int) returns (r: Option<Db>)
    ensures r == C.ThreadChanged(tx, p, at)
  {
    if p !in tx.posts {
      return None;
    }
    ThreadChangedTouchesEach(tx, p, at);
    hide C.ThreadChanged, C.Touch;
    var ids := [p];
    if tx.posts[p].continues.Some? {
      ids := ids + [tx.posts[p].continues.value];
    }
    assert ids[..|ids|] == ids;
    var db := tx;
    for i := 0 to |ids|
      invariant TouchEach(tx, ids[..i], at) == Some(db)
    {
      assert ids[..i + 1][..i] == ids[..i];
      if ids[i] !in db.posts {
        EachFails(tx, ids, i, at);
        return None;
      }
      db := Touch(db, ids[i], at);
    }
    return Some(db);
  }

  lemma {:induction false} EachFails(tx: Db, ids: seq<Id>, i: nat, at: int)
    requires i < |ids| && TouchEach(tx, ids[..i + 1], at).None?
    ensures TouchEach(tx, ids, at).None?
    decreases |ids|
  {
    if i + 1 == |ids| {
      assert ids[..i + 1] == ids;
    } else {
      assert ids[..|ids| - 1][..i + 1] == ids[..i + 1];
      EachFails(tx, ids[..|ids| - 1], i, at);
    }
  }
}
