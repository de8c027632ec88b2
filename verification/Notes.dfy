/**
 What a run promises about link notes: a note's text that is accepted was written from the source
 thread's current text (internal/cmd/links.go, jobs.go, internal/ai/worker.go). A note's version is
 the sum of its sources' thread versions, and every link note has just one source.
 */
module Notes {
  import opened Types
  import opened Jobs
  import opened Tables
  import opened Content
  import opened Versions
  import opened Imports
  import opened IndexFree
  import opened GroupLog
  import opened Digests
  import opened Citing
  import opened Index
  import C = Commands
  import Purge

  // ---- What commands do to notes ----

  /** Notes stay, with their source; their carried versions do not go back; and new ones have the
      ids that were brought for them. */
  ghost predicate NotesStay(a: Db, b: Db, ids: set<Id>) {
    && b.group == a.group && a.notes.Keys <= b.notes.Keys <= a.notes.Keys + ids
    && (forall n <- a.notes :: a.notes[n].ext <= b.notes[n].ext)
    && (forall s <- a.sources :: s in b.sources)
    && (OneSource(a) ==> OneSource(b))
  }

  lemma StayThen(a: Db, b: Db, c: Db, ids: set<Id>)
    requires NotesStay(a, b, ids) && NotesStay(b, c, ids)
    ensures NotesStay(a, c, ids)
  {
  }

  lemma SameStay(a: Db, b: Db, ids: set<Id>)
    requires SameNotes(a, b)
    ensures NotesStay(a, b, ids)
  {
  }

  // ---- Links: a new note comes with its source ----

  lemma NewNoteStays(a: Db, b: Db, n: Id, s: NoteSource, ids: set<Id>)
    requires n in ids
    requires b.group == a.group && n !in a.notes && n in b.notes && s.note == n && b.sources == a.sources + [s]
    requires b.notes.Keys == a.notes.Keys + {n} && forall x <- a.notes :: b.notes[x].ext == a.notes[x].ext
    ensures NotesStay(a, b, ids)
  {
    if OneSource(a) {
      forall i, j | 0 <= i < j < |b.sources| ensures b.sources[i].note != b.sources[j].note {
        if j == |a.sources| { assert a.sources[i] in a.sources; }
      }
    }
  }

  /** A note's row updated in place; what it carries does not go back. */
  lemma NoteUpdatedStays(a: Db, b: Db, n: Id, row: NoteRow, ids: set<Id>)
    requires b.group == a.group && n in a.notes && b.notes == a.notes[n := row] && b.sources == a.sources &&
             a.notes[n].ext <= row.ext
    ensures NotesStay(a, b, ids)
  {
  }

  lemma RelinkedStays(db: Db, group: Id, host: Id, other: Id, id: Id, ext: nat, at: int, ids: set<Id>)
    requires C.FindNote(db.notes, db.sources, group, host, other).Some? &&
             C.LinkNote(db, group, host, other, id, ext, at).Some?
    ensures NotesStay(db, C.LinkNote(db, group, host, other, id, ext, at).value, ids)
  {
    hide NotesStay, C.FindNote, NoteVersion, Schedule;
    var r, n := C.LinkNote(db, group, host, other, id, ext, at).value,
                C.FindNote(db.notes, db.sources, group, host, other).value;
    assert r.notes == db.notes[n := r.notes[n]] && r.sources == db.sources && r.group == db.group &&
           db.notes[n].ext <= r.notes[n].ext;
    hide C.LinkNote;
    NoteUpdatedStays(db, r, n, r.notes[n], ids);
  }

  lemma LinkNoteStays(db: Db, group: Id, host: Id, other: Id, id: Id, ext: nat, at: int, ids: set<Id>)
    requires id in ids && C.LinkNote(db, group, host, other, id, ext, at).Some?
    ensures NotesStay(db, C.LinkNote(db, group, host, other, id, ext, at).value, ids)
  {
    hide NotesStay, C.FindNote, NoteVersion, Schedule;
    if C.FindNote(db.notes, db.sources, group, host, other).Some? {
      hide C.LinkNote;
      RelinkedStays(db, group, host, other, id, ext, at, ids);
    } else {
      var r := C.LinkNote(db, group, host, other, id, ext, at).value;
      assert r.notes == db.notes[id := r.notes[id]] && id !in db.notes;
      assert r.sources == db.sources + [NoteSource(id, group, other)] && r.group == db.group;
      hide C.LinkNote;
      NewNoteStays(db, r, id, NoteSource(id, group, other), ids);
    }
  }

  lemma AddLinkStays(db: Db, a: Id, b: Id, auto: bool, noteA: Id, noteB: Id, at: int, ids: set<Id>)
    requires noteA in ids && noteB in ids && C.AddLink(db, a, b, auto, noteA, noteB, at).Some?
    ensures NotesStay(db, C.AddLink(db, a, b, auto, noteA, noteB, at).value, ids)
  {
    var key := if a < b then (a, b) else (b, a);
    var linked := db.(links := db.links[key := true]);
    SameStay(db, linked, ids);
    SameStay(db, db, ids);
    hide NotesStay, C.LinkNote;
    if !(key in db.links && (db.links[key] || auto)) {
      var one := C.LinkNote(linked, db.group, a, b, noteA, 0, at).value;
      LinkNoteStays(linked, db.group, a, b, noteA, 0, at, ids);
      StayThen(db, linked, one, ids);
      LinkNoteStays(one, db.group, b, a, noteB, 0, at, ids);
      StayThen(db, one, C.AddLink(db, a, b, auto, noteA, noteB, at).value, ids);
    }
  }

  lemma {:induction false} AddLinksStay(db: Db, post: Id, links: seq<C.CheckLink>, at: int, ids: set<Id>)
    requires (forall l <- links :: l.noteHere in ids && l.noteThere in ids) && C.AddLinks(db, post, links, at).Some?
    ensures NotesStay(db, C.AddLinks(db, post, links, at).value, ids)
    decreases |links|
  {
    SameStay(db, db, ids);
    hide NotesStay, C.AddLink;
    if links != [] {
      var before, l := C.AddLinks(db, post, links[..|links| - 1], at).value, links[|links| - 1];
      AddLinksStay(db, post, links[..|links| - 1], at, ids);
      if C.Linkable(before, post, l.other) {
        AddLinkStays(before, post, l.other, true, l.noteHere, l.noteThere, at, ids);
        StayThen(db, before, C.AddLinks(db, post, links, at).value, ids);
      }
    }
  }

  lemma SetCheckStays(db: Db, id: Id, worker: string, version: nat, verdict: C.Verdict, links: seq<C.CheckLink>,
                      at: int, ids: set<Id>)
    requires (forall l <- links :: l.noteHere in ids && l.noteThere in ids) &&
             C.SetCheck(db, id, worker, version, verdict, links, at).Some?
    ensures NotesStay(db, C.SetCheck(db, id, worker, version, verdict, links, at).value, ids)
  {
    var finished := db.(jobs := Finish(db.jobs, JobKey(Check, id), worker, version, db.posts[id].version, at));
    SameStay(db, finished, ids);
    hide NotesStay, C.ApplyVerdict, C.AddLinks, Finish, Accepts;
    if Accepts(db.jobs, JobKey(Check, id), worker, version, db.posts[id].version) {
      var judged := C.ApplyVerdict(finished, Item(APost, id), verdict, at).value;
      ApplyVerdictNotes(finished, Item(APost, id), verdict, at);
      hide SameNotes;
      SameStay(finished, judged, ids);
      StayThen(db, finished, judged, ids);
      if verdict != C.Violation && Shown(db.posts[id].status) {
        AddLinksStay(judged, id, links, at, ids);
        StayThen(db, judged, C.AddLinks(judged, id, links, at).value, ids);
      }
    }
  }

  lemma SetNoteStays(db: Db, n: Id, worker: string, version: nat, text: string, noChange: bool, at: int)
    requires C.SetNote(db, n, worker, version, text, noChange, at).Some?
    ensures SameNotes(db, C.SetNote(db, n, worker, version, text, noChange, at).value)
  {
    hide Finish, Accepts, NoteVersion, C.SetNote, C.Cut;
    SetNoteIs(db, n, worker, version, text, noChange, at);
  }

  lemma MarkSisterStaleStays(db: Db, n: Id, version: nat, at: int, ids: set<Id>)
    requires C.MarkSisterStale(db, n, version, at).Some?
    ensures NotesStay(db, C.MarkSisterStale(db, n, version, at).value, ids)
  {
    SameStay(db, db, ids);
    hide NoteVersion, Schedule, NotesStay;
    var r := C.MarkSisterStale(db, n, version, at).value;
    if n in db.notes && db.notes[n].active && db.notes[n].ext < version {
      var row := db.notes[n].(ext := version, stale := true);
      assert r.notes == db.notes[n := row] && r.sources == db.sources && r.group == db.group;
      hide C.MarkSisterStale;
      NoteUpdatedStays(db, r, n, row, ids);
    }
  }

  lemma RemoveLinkNotes(db: Db, a: Id, b: Id, who: Id)
    requires C.RemoveLink(db, a, b, who).Some?
    ensures SameNotes(db, C.RemoveLink(db, a, b, who).value)
  {
  }

  // ---- Any command ----

  lemma ContentNotes(db: Db, c: Cmd)
    requires ContentOk(db) && Step(db, c).Some?
    requires c.CreatePost? || c.EditPost? || c.CreateComment? || c.EditComment? || c.SoftDelete? || c.Restore? ||
             c.MoveUnder? || c.MoveOut? || c.ImportPost? || c.RequestArchiveRemoval?
    ensures Follow(db, Step(db, c).value)
  {
    hide Follow, C.CreatePost, C.EditPost, C.CreateComment, C.EditComment, C.SoftDelete, C.Restore, C.MoveUnder,
      C.MoveOut, C.ImportPost,
      C.RequestArchiveRemoval, ContentOk;
    match c
    case CreatePost(id, user, title, body, images, at) => CreatePostNotes(db, id, user, title, body, images, at);
    case EditPost(id, title, body, at) => EditPostNotes(db, id, title, body, at);
    case CreateComment(id, post, parent, user, body, image, at) =>
      CreateCommentNotes(db, id, post, parent, user, body, image, at);
    case EditComment(id, body, at) => EditCommentNotes(db, id, body, at);
    case SoftDelete(item, byMod, at) =>
      SoftDeleteOk(db, item, byMod, at);
      ItemFacts(db, item);
      SoftDeleteNotes(db, item, byMod, at);
    case Restore(item, at) =>
      RestoreOk(db, item, at);
      ItemFacts(db, item);
      RestoreNotes(db, item, at);
    case MoveUnder(id, under, at) => MoveUnderNotes(db, id, under, at);
    case MoveOut(id, at) => MoveOutNotes(db, id, at);
    case ImportPost(id, ref, title, body, images, cms, at) =>
      ImportPostNotes(db, id, ref, title, body, images, cms, at);
    case RequestArchiveRemoval(id, at) => RemovalNotes(db, id, at);
  }

  lemma QueueNotes(db: Db, c: Cmd)
    requires (c.ClaimJob? || c.FailJob? || c.Settle? || c.IndexPage? || c.SetLocked?) && Step(db, c).Some?
    ensures SameNotes(db, Step(db, c).value)
  {
    hide Claim, Fail;
  }

  lemma WorkNotes(db: Db, c: Cmd)
    requires ContentOk(db) && Step(db, c).Some?
    requires c.Approve? || c.Report? || c.Vote? || c.SetCommentCheck? || c.SetDigest? || c.SetNote? || c.ClaimJob? ||
             c.FailJob? ||
             c.RemoveLink? || c.Settle? || c.IndexPage? || c.SetLocked?
    ensures SameNotes(db, Step(db, c).value)
  {
    hide ContentOk, SameNotes, C.Approve, C.Report, C.Vote, C.SetCommentCheck, C.SetDigest, C.SetNote, C.RemoveLink,
      Claim, Fail;
    ContentIsSound(db);
    CommentsHave(db);
    if c.Approve? || c.Report? || c.Vote? || c.SetCommentCheck? {
      hide Step;
      ModerationNotes(db, c);
    } else if c.SetDigest? {
      SetDigestNotes(db, c);
    } else if c.SetNote? {
      SetNoteStays(db, c.note, c.worker, c.version, c.text, c.noChange, c.at);
    } else if c.RemoveLink? {
      RemoveLinkNotes(db, c.a, c.b, c.who);
    } else {
      hide Step;
      QueueNotes(db, c);
    }
  }

  /** The ids a command brings for new notes. */
  function NoteIds(c: Cmd): set<Id> {
    match c
    case AddLink(_, _, noteA, noteB, _) => {noteA, noteB}
    case LinkSister(_, _, _, n, _, _) => {n}
    case SetCheck(_, _, _, _, links, _) => (set l | l in links :: l.noteHere) + (set l | l in links :: l.noteThere)
    case _ => {}
  }

  predicate Links(c: Cmd) { c.AddLink? || c.LinkSister? || c.SetCheck? || c.MarkSisterStale? }

  lemma LinksStay(db: Db, c: Cmd)
    requires ContentOk(db) && Links(c) && Step(db, c).Some?
    ensures NotesStay(db, Step(db, c).value, NoteIds(c))
  {
    hide ContentOk, NotesStay, C.AddLink, C.LinkNote, C.SetCheck, C.MarkSisterStale;
    match c
    case AddLink(a, b, noteA, noteB, at) => AddLinkStays(db, a, b, false, noteA, noteB, at, NoteIds(c));
    case LinkSister(group, host, other, n, ext, at) => LinkNoteStays(db, group, host, other, n, ext, at, NoteIds(c));
    case SetCheck(id, worker, version, verdict, links, at) =>
      ContentIsSound(db);
      CommentsHave(db);
      SetCheckStays(db, id, worker, version, verdict, links, at, NoteIds(c));
    case MarkSisterStale(n, version, at) => MarkSisterStaleStays(db, n, version, at, NoteIds(c));
  }

  lemma StepNotesStay(db: Db, c: Cmd)
    requires ContentOk(db) && !c.PurgeGroup?
    ensures NotesStay(db, Apply(db, c), NoteIds(c))
  {
    SameStay(db, db, NoteIds(c));
    hide ContentOk, NotesStay, SameNotes, Step, NoteIds;
    if Step(db, c).None? {
    } else if Links(c) {
      LinksStay(db, c);
    } else {
      if c.Approve? || c.Report? || c.Vote? || c.SetCommentCheck? || c.SetDigest? || c.SetNote? || c.ClaimJob? || c.FailJob? ||
         c.RemoveLink? || c.Settle? || c.IndexPage? || c.SetLocked? {
        WorkNotes(db, c);
      } else {
        ContentNotes(db, c);
      }
      SameStay(db, Apply(db, c), NoteIds(c));
    }
  }

  /** The same of any sound tables, whatever is in the index. */
  lemma SoundNotesStay(db: Db, c: Cmd)
    requires Sound(db) && !c.PurgeGroup?
    ensures NotesStay(db, Apply(db, c), NoteIds(c))
  {
    hide Step, ContentOk;
    StepNotesStay(NoIndex(db), c);
    StepAlike(NoIndex(db), db, c);
    hide NoteIds;
  }

  // ---- The purge ----

  lemma DistinctTail(sources: seq<NoteSource>)
    requires DistinctNotes(sources) && sources != []
    ensures DistinctNotes(sources[1..]) && forall t <- sources[1..] :: t.note != sources[0].note
  {
  }

  lemma {:induction false} KeptSourcesDistinct(sources: seq<NoteSource>, notes: map<Id, NoteRow>, posts: set<Id>,
                                               group: Id)
    requires DistinctNotes(sources)
    ensures DistinctNotes(C.KeepSources(sources, notes, posts, group))
  {
    hide DistinctNotes;
    if sources == [] {
      DistinctNone();
    } else {
      DistinctTail(sources);
      KeptSourcesDistinct(sources[1..], notes, posts, group);
      Purge.SourcesShrink(sources[1..], notes, posts, group);
      DistinctConsIf(sources[0], C.KeepSources(sources[1..], notes, posts, group));
    }
  }

  lemma DistinctNone()
    ensures DistinctNotes([])
  {
  }

  lemma DistinctConsIf(s: NoteSource, rest: seq<NoteSource>)
    requires DistinctNotes(rest)
    ensures (forall t <- rest :: t.note != s.note) ==> DistinctNotes([s] + rest)
  {
  }

  lemma PurgeKeepsOneSource(db: Db, before: int)
    requires OneSource(db)
    ensures OneSource(C.PurgeGroup(db, before))
  {
    var posts := C.KeptPosts(db.posts, before).Keys;
    KeptSourcesDistinct(db.sources, db.notes, posts, db.group);
    Purge.SourcesShrink(db.sources, db.notes, posts, db.group);
    hide C.PurgeSide, C.KeptComments, C.KeptJobs, C.KeptRows, C.KeptLinks, C.KeepSources, C.KeptPosts, C.CutLoose;
    var kept := C.KeepSources(db.sources, db.notes, posts, db.group);
    forall t <- kept ensures t.note in C.PurgeGroup(db, before).notes {
      assert C.HasSource(kept, t.note);
    }
  }

  /** A note that is still there after a purge keeps its source, and the source's post is still there. */
  lemma PurgeKeepsSource(db: Db, before: int, s: NoteSource)
    requires OneSource(db) && s in db.sources && s.note in C.PurgeGroup(db, before).notes
    ensures s in C.PurgeGroup(db, before).sources && (s.group == db.group ==> s.post in C.PurgeGroup(db, before).posts)
    ensures s.note in db.notes && C.PurgeGroup(db, before).notes[s.note].ext == db.notes[s.note].ext
  {
    var posts := C.KeptPosts(db.posts, before);
    Purge.SourcesShrink(db.sources, db.notes, posts.Keys, db.group);
    assert C.CutLoose(posts).Keys == posts.Keys;
    hide C.PurgeSide, C.KeptComments, C.KeptJobs, C.KeptRows, C.KeptLinks, C.KeepSources, C.KeptPosts, C.CutLoose;
    var t :| t in C.KeepSources(db.sources, db.notes, posts.Keys, db.group) && t.note == s.note;
    SameSource(db, s, t);
  }

  lemma PurgeGroupKept(db: Db, before: int)
    ensures C.PurgeGroup(db, before).group == db.group
  {
    hide C.PurgeSide, C.KeptComments, C.KeptJobs, C.KeptRows, C.KeptLinks, C.KeepSources, C.KeptPosts, C.CutLoose;
  }

  lemma SameSource(db: Db, s: NoteSource, t: NoteSource)
    requires OneSource(db) && s in db.sources && t in db.sources && s.note == t.note
    ensures s == t
  {
    var i :| 0 <= i < |db.sources| && db.sources[i] == s;
    var j :| 0 <= j < |db.sources| && db.sources[j] == t;
  }

  // ---- Whole runs ----

  /** A note with the one source it is written from. */
  ghost predicate WrittenFrom(db: Db, s: NoteSource) {
    OneSource(db) && s in db.sources && s.group == db.group && s.post in db.posts
  }

  lemma VersionOfOneSource(db: Db, s: NoteSource)
    requires WrittenFrom(db, s)
    ensures s.note in db.notes && NoteVersion(db, s.note) == db.posts[s.post].threadVersion + db.notes[s.note].ext
  {
    OneTerm(db.posts, db.sources, s);
  }

  lemma BlankOneSource(db: Db)
    requires Blank(db)
    ensures OneSource(db)
  {
  }

  lemma StepKeepsOneSource(db: Db, c: Cmd)
    requires Sound(db) && OneSource(db)
    ensures OneSource(Apply(db, c))
  {
    if c.PurgeGroup? {
      hide C.PurgeGroup, OneSource, Sound;
      PurgeKeepsOneSource(db, c.before);
    } else {
      hide Apply, OneSource, Sound, NoteIds;
      SoundNotesStay(db, c);
    }
  }

  /** In every state any run can reach, every note has one source. */
  lemma {:induction false} AlwaysOneSource(start: Db, log: seq<Cmd>)
    requires Blank(start) && FreshIds(start, log)
    ensures OneSource(State(start, log))
  {
    hide OneSource, Apply, FreshIds, Sound;
    if log == [] {
      BlankOneSource(start);
    } else {
      FreshPrefix(start, log, |log| - 1);
      AlwaysOneSource(start, log[..|log| - 1]);
      EveryStateIsSound(start, log[..|log| - 1]);
      StepKeepsOneSource(State(start, log[..|log| - 1]), log[|log| - 1]);
    }
  }

  /** A note that stays keeps its source, the source's post stays, and nothing goes back. */
  lemma StepKeepsNote(db: Db, c: Cmd, s: NoteSource)
    requires Sound(db) && Usable(db, c)
    requires WrittenFrom(db, s) && s.note in db.notes && s.note in Apply(db, c).notes
    ensures WrittenFrom(Apply(db, c), s) && db.notes[s.note].ext <= Apply(db, c).notes[s.note].ext
  {
    hide Sound, Usable;
    StepKeepsOneSource(db, c);
    if c.PurgeGroup? {
      hide C.PurgeGroup;
      PurgeKeepsSource(db, c.before, s);
      PurgeGroupKept(db, c.before);
      hide OneSource;
    } else {
      SoundNotesStay(db, c);
      hide Step, OneSource;
      PostsStay(db, c);
    }
  }

  /** Only the purge takes posts away. */
  lemma PostsStay(db: Db, c: Cmd)
    requires Sound(db) && Usable(db, c) && !c.PurgeGroup?
    ensures db.posts.Keys <= Apply(db, c).posts.Keys
  {
    hide Sound, Usable, Steady, C.ImportPost, LeftAlone;
    if Step(db, c).None? {
    } else if c.SetDigest? {
      SetDigestKeys(db, c);
    } else if c.ClaimJob? || c.FailJob? {
      WorkerKeys(db, c);
    } else if Brings(db, c) {
      ImportAddsOne(db, c.id, c.ref, c.title, c.body, c.images, c.cms, c.at);
    } else {
      StepSteady(db, c);
    }
  }

  /** A run of a group's log in which the id brought for a note never was the id of one that is gone. */
  ghost predicate NoteHistory(start: Db, log: seq<Cmd>) {
    && Begun(start, log)
    && (forall m, k, n | 0 <= m <= k < |log| && n in NoteIds(log[k]) && Step(Digests.At(start, log, k), log[k]).Some? ::
          n in Digests.At(start, log, m).notes ==> n in Digests.At(start, log, k).notes)
  }

  lemma NotesOnlyAdd(db: Db, c: Cmd)
    requires Sound(db)
    ensures Apply(db, c).notes.Keys <= db.notes.Keys + if Step(db, c).Some? then NoteIds(c) else {}
  {
    hide Sound;
    if c.PurgeGroup? {
      hide C.PurgeSide, C.KeptComments, C.KeptJobs, C.KeptRows, C.KeptLinks, C.KeepSources, C.KeptPosts, C.CutLoose;
    } else {
      hide Apply, NoteIds;
      SoundNotesStay(db, c);
    }
  }

  /** A note that is there twice was there in between. */
  lemma {:induction false} NoteWasThere(start: Db, log: seq<Cmd>, n: Id, i: nat, m: nat, k: nat)
    requires NoteHistory(start, log) && i <= m <= k <= |log|
    requires n in Digests.At(start, log, i).notes && n in Digests.At(start, log, k).notes
    ensures n in Digests.At(start, log, m).notes
    decreases k - m
  {
    if m < k {
      NoteWasThere(start, log, n, i, m + 1, k);
      StepFacts(start, log, m);
      NextState(start, log, m);
      hide Sound, Usable, Apply, State, NoteIds;
      NotesOnlyAdd(Digests.At(start, log, m), log[m]);
    }
  }

  lemma NoteStep(start: Db, log: seq<Cmd>, s: NoteSource, k: nat)
    requires Begun(start, log) && k < |log| && WrittenFrom(Digests.At(start, log, k), s)
    requires s.note in Digests.At(start, log, k).notes && s.note in Digests.At(start, log, k + 1).notes
    ensures WrittenFrom(Digests.At(start, log, k + 1), s)
    ensures Digests.At(start, log, k).notes[s.note].ext <= Digests.At(start, log, k + 1).notes[s.note].ext
  {
    hide Begun, Sound, Usable, WrittenFrom, Apply, Digests.At;
    StepFacts(start, log, k);
    NextState(start, log, k);
    StepKeepsNote(Digests.At(start, log, k), log[k], s);
  }

  /** A note that is there at two points is written from the same post at both, and what it carries
      did not go back. */
  lemma {:induction false} NoteLasts(start: Db, log: seq<Cmd>, s: NoteSource, i: nat, m: nat)
    requires NoteHistory(start, log) && i <= m <= |log| && WrittenFrom(Digests.At(start, log, i), s)
    requires s.note in Digests.At(start, log, i).notes && s.note in Digests.At(start, log, m).notes
    ensures WrittenFrom(Digests.At(start, log, m), s)
    ensures Digests.At(start, log, i).notes[s.note].ext <= Digests.At(start, log, m).notes[s.note].ext
    decreases m
  {
    hide Begun, WrittenFrom, Digests.At;
    if i < m {
      NoteWasThere(start, log, s.note, i, m - 1, m);
      NoteLasts(start, log, s, i, m - 1);
      NoteStep(start, log, s, m - 1);
    }
  }

  /** Whether a command is a text for note n that is accepted. */
  predicate AcceptedNote(db: Db, c: Cmd, n: Id) {
    c.SetNote? && c.note == n && Accepts(db.jobs, JobKey(Note, n), c.worker, c.version, NoteVersion(db, n))
  }

  lemma NoteOf(db: Db, s: NoteSource)
    requires WrittenFrom(db, s)
    ensures s.note in db.notes && s.post in db.posts
  {
  }

  /** Main result. A worker reads a link note's version, then the source thread's text, on a replica
      that may lag. If its text is accepted for a note that is there, what it read of the source,
      since when no import changed it untold, is the source's text at that moment. */
  lemma AcceptedNoteReadThisText(start: Db, log: seq<Cmd>, s: NoteSource, i: nat, m: nat, k: nat)
    requires History(start, log) && NoteHistory(start, log) && i <= m <= k < |log| &&
             WrittenFrom(Digests.At(start, log, i), s)
    requires AcceptedNote(Digests.At(start, log, k), log[k], s.note) && s.note in Digests.At(start, log, k).notes
    requires log[k].version == NoteVersion(Digests.At(start, log, i), s.note)
    requires ToldMeanwhile(start, log, s.post, m, k)
    ensures s.post in Digests.At(start, log, m).posts && s.post in Digests.At(start, log, k).posts
    ensures ViewOf(Digests.At(start, log, m), s.post) == ViewOf(Digests.At(start, log, k), s.post)
  {
    hide History, View, Digests.At, NoteVersion, OneSource, WrittenFrom, ToldMeanwhile;
    NoteOf(Digests.At(start, log, i), s);
    NoteLasts(start, log, s, i, k);
    VersionOfOneSource(Digests.At(start, log, i), s);
    VersionOfOneSource(Digests.At(start, log, k), s);
    NoteOf(Digests.At(start, log, k), s);
    VersionsNeverGoBack(start, log, s.post, i, k);
    TextSinceRead(start, log, s.post, i, m, k);
  }
}
