/**
 No work is lost on link notes: every active note written from another post of the group waits to be
 rewritten for the version it has, or was given up on, or has a text written from what its source
 says now (internal/cmd/jobs.go, links.go, internal/ai/worker.go).
 */
module NoteWork {
  import opened Types
  import opened Jobs
  import opened Tables
  import opened Content
  import opened Versions
  import opened IndexFree
  import opened Index
  import opened GroupLog
  import opened Digests
  import opened Citing
  import opened Notes
  import C = Commands
  import Purge

  // ---- Links ----

  /** One note, old or new, is stale and queued for the version it has; the rest is as it was. */
  lemma OneQueued(a: Db, b: Db, n: Id, runAfter: int, at: int)
    requires b.posts == a.posts && b.group == a.group && n in b.notes && b.notes == a.notes[n := b.notes[n]] &&
             b.notes[n].stale
    requires forall s <- b.sources :: s in a.sources || s.note == n
    requires b.jobs == Schedule(a.jobs, NoteKey(n), NoteVersion(b, n), runAfter, at)
    requires Sourced(a) ==> Sourced(b)
    ensures NotesGoOn(a, b)
  {
    if Sourced(a) {
      forall s | Live(b, s) ensures Waits(b, s) || Stands(a, b, s) {
        OneTerm(b.posts, b.sources, s);
      }
    }
  }

  /** A note's row and sources put in place, and the note queued. */
  ghost predicate Linked(a: Db, b: Db, n: Id, sources: seq<NoteSource>, at: int) {
    b.posts == a.posts && b.group == a.group && n in b.notes && b.notes == a.notes[n := b.notes[n]] && b.notes[n].stale &&
    b.sources == sources && b.jobs == Schedule(a.jobs, NoteKey(n), NoteVersion(b, n), at, at)
  }

  lemma PutAndQueued(a: Db, linked: Db, n: Id, row: NoteRow, sources: seq<NoteSource>, at: int)
    requires row.stale && linked.posts == a.posts && linked.group == a.group && linked.jobs == a.jobs
    requires linked.notes == a.notes[n := row] && linked.sources == sources
    ensures Linked(a, linked.(jobs := Schedule(a.jobs, NoteKey(n), NoteVersion(linked, n), at, at)), n, sources, at)
  {
    hide NoteVersion, Schedule;
    JobsDoNotCount(linked, Schedule(a.jobs, NoteKey(n), NoteVersion(linked, n), at, at), n);
  }

  lemma LinkNoteRows(db: Db, group: Id, host: Id, other: Id, id: Id, ext: nat, at: int)
    requires C.LinkNote(db, group, host, other, id, ext, at).Some?
    ensures var r, found := C.LinkNote(db, group, host, other, id, ext, at).value,
                            C.FindNote(db.notes, db.sources, group, host, other);
            if found.Some? then Linked(db, r, found.value, db.sources, at)
            else Linked(db, r, id, db.sources + [NoteSource(id, group, other)], at)
  {
    hide C.FindNote, Schedule, NoteVersion, Linked;
    var found := C.FindNote(db.notes, db.sources, group, host, other);
    if found.Some? {
      var n := found.value;
      var row := db.notes[n].(active := true, removedBy := None, stale := true,
                              ext := if db.notes[n].ext < ext then ext else db.notes[n].ext);
      PutAndQueued(db, db.(notes := db.notes[n := row]), n, row, db.sources, at);
    } else {
      var row, sources := NoteRow(host, "", true, true, None, ext), db.sources + [NoteSource(id, group, other)];
      PutAndQueued(db, db.(notes := db.notes[id := row], sources := sources), id, row, sources, at);
    }
  }

  lemma LinkNoteGoesOn(db: Db, group: Id, host: Id, other: Id, id: Id, ext: nat, at: int)
    requires C.LinkNote(db, group, host, other, id, ext, at).Some? && (group == db.group ==> other in db.posts)
    ensures var r := C.LinkNote(db, group, host, other, id, ext, at).value;
            r.posts == db.posts && r.group == db.group && NotesGoOn(db, r)
  {
    LinkNoteRows(db, group, host, other, id, ext, at);
    LinkNoteStays(db, group, host, other, id, ext, at, {id});
    hide C.LinkNote, C.FindNote, Schedule, NoteVersion, NotesGoOn, OneSource;
    var found := C.FindNote(db.notes, db.sources, group, host, other);
    OneQueued(db, C.LinkNote(db, group, host, other, id, ext, at).value, if found.Some? then found.value else id, at,
              at);
  }

  lemma AddLinkGoesOn(db: Db, a: Id, b: Id, auto: bool, noteA: Id, noteB: Id, at: int)
    requires C.AddLink(db, a, b, auto, noteA, noteB, at).Some?
    ensures NotesGoOn(db, C.AddLink(db, a, b, auto, noteA, noteB, at).value)
  {
    var key := if a < b then (a, b) else (b, a);
    var linked := db.(links := db.links[key := true]);
    QuietSelf(db);
    LinkedGoesOn(db, linked.links);
    hide C.LinkNote, NotesGoOn;
    if !(key in db.links && (db.links[key] || auto)) {
      var one := C.LinkNote(linked, db.group, a, b, noteA, 0, at).value;
      LinkNoteGoesOn(linked, db.group, a, b, noteA, 0, at);
      GoOnThen(db, linked, one);
      LinkNoteGoesOn(one, db.group, b, a, noteB, 0, at);
      GoOnThen(db, one, C.AddLink(db, a, b, auto, noteA, noteB, at).value);
    }
  }

  lemma LinkedGoesOn(db: Db, links: map<(Id, Id), bool>)
    ensures NotesGoOn(db, db.(links := links))
  {
  }

  lemma {:induction false} AddLinksGoOn(db: Db, post: Id, links: seq<C.CheckLink>, at: int)
    requires C.AddLinks(db, post, links, at).Some?
    ensures NotesGoOn(db, C.AddLinks(db, post, links, at).value)
    decreases |links|
  {
    QuietSelf(db);
    hide NotesGoOn, C.AddLink;
    if links != [] {
      var before, l := C.AddLinks(db, post, links[..|links| - 1], at).value, links[|links| - 1];
      AddLinksGoOn(db, post, links[..|links| - 1], at);
      if C.Linkable(before, post, l.other) {
        AddLinkGoesOn(before, post, l.other, true, l.noteHere, l.noteThere, at);
        GoOnThen(db, before, C.AddLinks(db, post, links, at).value);
      }
    }
  }

  lemma SetCheckGoesOn(db: Db, id: Id, worker: string, version: nat, verdict: C.Verdict, links: seq<C.CheckLink>,
                       at: int)
    requires C.SetCheck(db, id, worker, version, verdict, links, at).Some?
    ensures NotesGoOn(db, C.SetCheck(db, id, worker, version, verdict, links, at).value)
  {
    var k := JobKey(Check, id);
    var finished := db.(jobs := Finish(db.jobs, k, worker, version, db.posts[id].version, at));
    OtherFinish(db.jobs, k, worker, version, db.posts[id].version, at);
    hide NotesGoOn, C.ApplyVerdict, C.AddLinks, Finish, Accepts, SameNoteJobs;
    TablesQuiet(db, finished);
    QuietFollows(db, finished);
    if Accepts(db.jobs, k, worker, version, db.posts[id].version) {
      var judged := C.ApplyVerdict(finished, Item(APost, id), verdict, at).value;
      ApplyVerdictNotes(finished, Item(APost, id), verdict, at);
      GoOnThen(db, finished, judged);
      if verdict != C.Violation && Shown(db.posts[id].status) {
        AddLinksGoOn(judged, id, links, at);
        GoOnThen(db, judged, C.AddLinks(judged, id, links, at).value);
      }
    }
  }

  lemma MarkSisterStaleGoesOn(db: Db, n: Id, version: nat, at: int)
    requires C.MarkSisterStale(db, n, version, at).Some?
    ensures NotesGoOn(db, C.MarkSisterStale(db, n, version, at).value)
  {
    QuietSelf(db);
    if n in db.notes && db.notes[n].active && db.notes[n].ext < version {
      hide NoteVersion, Schedule, NotesGoOn;
      var marked := db.(notes := db.notes[n := db.notes[n].(ext := version, stale := true)]);
      var r := C.MarkSisterStale(db, n, version, at).value;
      JobsDoNotCount(marked, r.jobs, n);
      OneQueued(db, r, n, at, at);
    }
  }

  /** A note whose link is removed is no longer live; the others are as they were. */
  lemma RemoveLinkGoesOn(db: Db, a: Id, b: Id, who: Id)
    requires C.RemoveLink(db, a, b, who).Some?
    ensures NotesGoOn(db, C.RemoveLink(db, a, b, who).value)
  {
  }

  lemma PurgeGoesOn(db: Db, before: int)
    ensures NotesGoOn(db, C.PurgeGroup(db, before))
  {
    var r, posts := C.PurgeGroup(db, before), C.KeptPosts(db.posts, before).Keys;
    Purge.SourcesShrink(db.sources, db.notes, posts, db.group);
    hide C.PurgeSide, C.KeptComments, C.KeptRows, C.KeptLinks, C.KeepSources;
    if Sourced(db) {
      PurgeKeepsOneSource(db, before);
      forall s | Live(r, s) ensures Stands(db, r, s) {
        assert NoteKey(s.note) in db.jobs ==> C.JobStays(NoteKey(s.note), posts, r.comments.Keys, r.notes.Keys);
      }
    }
  }

  lemma PlainGoesOn(db: Db, c: Cmd)
    requires Step(db, c).Some? && (c.Settle? || c.IndexPage? || c.SetLocked?)
    ensures NotesGoOn(db, Step(db, c).value)
  {
    SameJobs(db.jobs);
    if c.SetLocked? {
      PostPutQuiet(db, Step(db, c).value, c.id, db.posts[c.id].(locked := c.on));
    } else {
      TablesQuiet(db, Step(db, c).value);
    }
    QuietFollows(db, Step(db, c).value);
  }

  // ---- The worker's own commands ----

  predicate Works(c: Cmd) { c.ClaimJob? || c.FailJob? || c.SetNote? }

  /** Whether a command gives up on note n: its worker holds the job and has used every try. */
  predicate GaveUpNote(db: Db, c: Cmd, n: Id) {
    c.FailJob? && c.key == NoteKey(n) && HeldBy(db.jobs, NoteKey(n), c.worker) &&
    db.jobs[NoteKey(n)].attempts >= MAX_ATTEMPTS
  }

  /** What an accepted text leaves: an empty one, or "no change", leaves the text there was. */
  function Rewritten(text: string, c: Cmd): string
    requires c.SetNote?
  {
    if c.text == "" || (c.noChange && text != "") then text else C.Cut(c.text)
  }

  predicate NoteJobSteady(was: Option<Job>, now: Option<Job>, accepted: bool, gaveUp: bool) {
    was.Some? ==>
      && now.Some? && now.value.refVersion == was.value.refVersion
      && (now.value.doneAt.None? ==> was.value.doneAt.None? && !accepted)
      && (was.value.doneAt.None? && now.value.doneAt.Some? ==> accepted || gaveUp)
  }

  /** The note's version stands; its text and its job change only by what its worker hands in. */
  predicate NoteSteady(db: Db, c: Cmd, db': Db, s: NoteSource)
    requires Live(db', s)
  {
    var accepted := AcceptedNote(db, c, s.note);
    && Live(db, s) && db'.posts[s.post].threadVersion == db.posts[s.post].threadVersion
    && db'.notes[s.note] == (if accepted then db.notes[s.note].(text := Rewritten(db.notes[s.note].text, c), stale := false)
                             else db.notes[s.note])
    && NoteJobSteady(Find(db.jobs, NoteKey(s.note)), Find(db'.jobs, NoteKey(s.note)), accepted, GaveUpNote(db, c, s.note))
  }

  predicate NoteGoesOn(db: Db, c: Cmd, db': Db, s: NoteSource)
    requires Live(db', s)
  {
    Waits(db', s) || NoteSteady(db, c, db', s)
  }

  lemma CutIsEmptyIff(text: string)
    ensures C.Cut(text) == "" <==> text == ""
  {
  }

  lemma SetNoteFields(db: Db, n: Id, worker: string, version: nat, text: string, noChange: bool, at: int)
    requires C.SetNote(db, n, worker, version, text, noChange, at).Some?
    ensures var r, current := C.SetNote(db, n, worker, version, text, noChange, at).value, NoteVersion(db, n);
            r.posts == db.posts && r.group == db.group && r.sources == db.sources &&
            r.jobs == Finish(db.jobs, NoteKey(n), worker, version, current, at) &&
            if Accepts(db.jobs, NoteKey(n), worker, version, current)
            then n in db.notes && r.notes == db.notes[n := Noted(db.notes[n], text, noChange)]
            else r.notes == db.notes
  {
    SetNoteIs(db, n, worker, version, text, noChange, at);
    hide C.SetNote, NoteVersion, Finish, Accepts, Noted;
  }

  lemma SetNoteSteady(db: Db, c: Cmd, s: NoteSource)
    requires c.SetNote? && Step(db, c).Some? && Live(Step(db, c).value, s)
    ensures NoteSteady(db, c, Step(db, c).value, s)
  {
    SetNoteFields(db, c.note, c.worker, c.version, c.text, c.noChange, c.at);
    CutIsEmptyIff(c.text);
    hide C.SetNote, NoteVersion, C.Cut;
  }

  lemma WorkSteady(db: Db, c: Cmd, s: NoteSource)
    requires Works(c) && Step(db, c).Some? && Live(Step(db, c).value, s)
    ensures NoteSteady(db, c, Step(db, c).value, s)
  {
    if c.SetNote? {
      hide Step;
      SetNoteSteady(db, c, s);
    }
  }

  lemma SetNoteSourced(db: Db, n: Id, worker: string, version: nat, text: string, noChange: bool, at: int)
    requires C.SetNote(db, n, worker, version, text, noChange, at).Some? && Sourced(db)
    ensures Sourced(C.SetNote(db, n, worker, version, text, noChange, at).value)
  {
    SetNoteFields(db, n, worker, version, text, noChange, at);
    hide Finish, Accepts, NoteVersion, C.SetNote, Noted, DistinctNotes;
  }

  lemma WorkSourced(db: Db, c: Cmd)
    requires Works(c) && Step(db, c).Some? && Sourced(db)
    ensures Sourced(Step(db, c).value)
  {
    hide Claim, Fail, C.SetNote, OneSource;
    if c.SetNote? {
      hide Sourced;
      SetNoteSourced(db, c.note, c.worker, c.version, c.text, c.noChange, c.at);
    } else {
      var r := Step(db, c).value;
      assert r == db.(jobs := r.jobs);
      SameSourced(db, r.jobs);
    }
  }

  lemma SameSourced(db: Db, jobs: Queue)
    requires Sourced(db)
    ensures Sourced(db.(jobs := jobs))
  {
  }

  // ---- Any command ----

  lemma LinksGoOn(db: Db, c: Cmd)
    requires Step(db, c).Some? && (Links(c) || c.RemoveLink?)
    ensures NotesGoOn(db, Step(db, c).value)
  {
    hide NotesGoOn, C.AddLink, C.LinkNote, C.SetCheck, C.MarkSisterStale, C.RemoveLink;
    match c
    case AddLink(a, b, noteA, noteB, at) => AddLinkGoesOn(db, a, b, false, noteA, noteB, at);
    case LinkSister(group, host, other, n, ext, at) => LinkNoteGoesOn(db, group, host, other, n, ext, at);
    case SetCheck(id, worker, version, verdict, links, at) =>
      SetCheckGoesOn(db, id, worker, version, verdict, links, at);
    case MarkSisterStale(n, version, at) => MarkSisterStaleGoesOn(db, n, version, at);
    case RemoveLink(a, b, who) => RemoveLinkGoesOn(db, a, b, who);
  }

  /** Whatever the command, if it is not the worker's: each live note is queued, or is as it was. */
  lemma StepGoesOn(db: Db, c: Cmd)
    requires ContentOk(db) && Step(db, c).Some? && !Works(c)
    ensures NotesGoOn(db, Step(db, c).value)
  {
    hide ContentOk, NotesGoOn, SameNotes, Step;
    if Links(c) || c.RemoveLink? {
      LinksGoOn(db, c);
    } else if c.PurgeGroup? {
      assert Step(db, c).value == C.PurgeGroup(db, c.before) by { PurgeStep(db, c); }
      PurgeGoesOn(db, c.before);
    } else if c.Settle? || c.IndexPage? || c.SetLocked? {
      PlainGoesOn(db, c);
    } else if c.SetDigest? {
      SetDigestNotes(db, c);
    } else if c.Approve? || c.Report? || c.Vote? || c.SetCommentCheck? {
      CommentsHave(db) by { ContentIsSound(db); }
      ModerationNotes(db, c);
    } else {
      ContentNotes(db, c);
    }
  }

  lemma PurgeStep(db: Db, c: Cmd)
    requires c.PurgeGroup?
    ensures Step(db, c) == Some(C.PurgeGroup(db, c.before))
  {
  }

  lemma AlikeGoesOn(a: Db, a': Db, b: Db, b': Db)
    requires Alike(a, b) && Alike(a', b') && NotesGoOn(a, a')
    ensures NotesGoOn(b, b')
  {
    forall s ensures Live(b, s) == Live(a, s) && Live(b', s) == Live(a', s) {}
  }

  lemma SoundGoesOn(db: Db, c: Cmd)
    requires Sound(db) && Step(db, c).Some? && !Works(c)
    ensures NotesGoOn(db, Apply(db, c))
  {
    hide Step, ContentOk, NotesGoOn, Alike;
    var bare := NoIndex(db);
    SoundIsGood(db);
    assert Alike(bare, db) by { BareAlike(db); }
    StepAlike(bare, db, c);
    StepGoesOn(bare, c);
    AlikeGoesOn(bare, Apply(bare, c), db, Apply(db, c));
  }

  lemma BareAlike(db: Db)
    ensures Alike(NoIndex(db), db)
  {
  }

  lemma StandsIsSteady(a: Db, c: Cmd, b: Db, s: NoteSource)
    requires Live(b, s) && Stands(a, b, s) && !c.SetNote?
    ensures NoteSteady(a, c, b, s)
  {
  }

  /** Whatever the command, each live note waits for the version it has, or its version stands and
      only its worker changes it. */
  lemma StepNoteGoesOn(db: Db, c: Cmd, s: NoteSource)
    requires Sound(db) && Sourced(db)
    ensures Sourced(Apply(db, c))
    ensures Live(Apply(db, c), s) ==> NoteGoesOn(db, c, Apply(db, c), s)
  {
    if Step(db, c).None? {
      NothingNote(db, c, s);
    } else if Works(c) {
      hide Sound, Sourced, Live, Step, NoteSteady;
      WorkSourced(db, c);
      if Live(Apply(db, c), s) { WorkSteady(db, c, s); }
    } else {
      SoundGoesOn(db, c);
      hide Sound, Sourced, Step, Waits, Stands, NoteSteady, Apply;
      if Live(Apply(db, c), s) && !Waits(Apply(db, c), s) { StandsIsSteady(db, c, Apply(db, c), s); }
    }
  }

  /** A command that fails is not an accepted text. */
  lemma NothingNote(db: Db, c: Cmd, s: NoteSource)
    requires Step(db, c).None?
    ensures Live(db, s) ==> NoteSteady(db, c, db, s)
  {
    if c.SetNote? {
      SetNoteIs(db, c.note, c.worker, c.version, c.text, c.noChange, c.at);
      hide C.SetNote, NoteVersion, Finish;
    } else if c.FailJob? {
    }
  }

  // ---- Whole runs ----

  lemma BlankSourced(db: Db)
    requires Blank(db)
    ensures Sourced(db) && forall s :: !Live(db, s)
  {
  }

  lemma NoNotesAtStart(start: Db, log: seq<Cmd>, s: NoteSource)
    requires Begun(start, log)
    ensures Sourced(At(start, log, 0)) && !Live(At(start, log, 0), s)
  {
    BlankSourced(start);
  }

  lemma NextNote(start: Db, log: seq<Cmd>, k: nat, s: NoteSource)
    requires Begun(start, log) && k < |log| && Sourced(At(start, log, k))
    ensures Sourced(At(start, log, k + 1))
    ensures Live(At(start, log, k + 1), s) ==> NoteGoesOn(At(start, log, k), log[k], At(start, log, k + 1), s)
  {
    hide Begun, Sound, Usable, Sourced, Apply, At, NoteGoesOn, Live;
    StepFacts(start, log, k);
    NextState(start, log, k);
    StepNoteGoesOn(At(start, log, k), log[k], s);
  }

  lemma {:induction false} AlwaysSourced(start: Db, log: seq<Cmd>, k: nat)
    requires Begun(start, log) && k <= |log|
    ensures Sourced(At(start, log, k))
  {
    hide Begun, At, Sourced, State;
    if k == 0 {
      NoNotesAtStart(start, log, NoteSource(0, 0, 0));
    } else {
      AlwaysSourced(start, log, k - 1);
      NextNote(start, log, k - 1, NoteSource(0, 0, 0));
    }
  }

  /** The note has its job, for the version it now has; and while that is open the note is stale. */
  predicate NoteQueued(db: Db, s: NoteSource)
    requires Live(db, s)
  {
    NoteKey(s.note) in db.jobs &&
    db.jobs[NoteKey(s.note)].refVersion == db.posts[s.post].threadVersion + db.notes[s.note].ext &&
    (db.jobs[NoteKey(s.note)].doneAt.None? ==> db.notes[s.note].stale)
  }

  lemma NoteStaysQueued(db: Db, c: Cmd, db': Db, s: NoteSource)
    requires Live(db', s) && NoteGoesOn(db, c, db', s) && (Live(db, s) ==> NoteQueued(db, s))
    ensures NoteQueued(db', s)
  {
    hide AcceptedNote, GaveUpNote;
  }

  /** Main result. In every reachable state each live note has its job, and the job is for the version
      the note has now. */
  lemma {:induction false} EveryNoteHasItsJob(start: Db, log: seq<Cmd>, k: nat, s: NoteSource)
    requires Begun(start, log) && k <= |log| && Live(At(start, log, k), s)
    ensures NoteQueued(At(start, log, k), s)
  {
    hide Begun, At, NoteQueued, NoteGoesOn, Live, State;
    if k == 0 {
      NoNotesAtStart(start, log, s);
    } else {
      AlwaysSourced(start, log, k - 1);
      NextNote(start, log, k - 1, s);
      if Live(At(start, log, k - 1), s) { EveryNoteHasItsJob(start, log, k - 1, s); }
      NoteStaysQueued(At(start, log, k - 1), log[k - 1], At(start, log, k), s);
    }
  }

  predicate NoteClosed(db: Db, s: NoteSource) {
    NoteKey(s.note) in db.jobs && db.jobs[NoteKey(s.note)].doneAt.Some?
  }

  predicate SameVersion(a: Db, b: Db, s: NoteSource)
    requires Live(a, s) && Live(b, s)
  {
    b.posts[s.post].threadVersion == a.posts[s.post].threadVersion && b.notes[s.note].ext == a.notes[s.note].ext
  }

  /** What a command that ends a note's job leaves: a text, no longer stale; or, given up on, a stale note. */
  predicate Ends(db: Db, c: Cmd, end: Db, s: NoteSource)
    requires Live(db, s) && Live(end, s)
  {
    if AcceptedNote(db, c, s.note) then
      end.notes[s.note].text == Rewritten(db.notes[s.note].text, c) && !end.notes[s.note].stale
    else GaveUpNote(db, c, s.note) && end.notes[s.note].stale
  }

  /** Step j ended the note's job for the version it still has at k, and the note is as j left it. */
  ghost predicate NoteEndedAt(start: Db, log: seq<Cmd>, s: NoteSource, k: nat, j: nat)
    requires j < k <= |log|
  {
    && Live(At(start, log, j), s) && Live(At(start, log, k), s)
    && SameVersion(At(start, log, j), At(start, log, k), s)
    && Ends(At(start, log, j), log[j], At(start, log, k), s)
  }

  /** A step to a closed job: it ended it, or it was closed before and nothing changed. */
  lemma CloseStep(db: Db, c: Cmd, db': Db, s: NoteSource)
    requires Live(db', s) && NoteGoesOn(db, c, db', s) && NoteClosed(db', s) && (Live(db, s) ==> NoteQueued(db, s))
    ensures Live(db, s) && SameVersion(db, db', s)
    ensures Ends(db, c, db', s) || (NoteClosed(db, s) && db'.notes[s.note] == db.notes[s.note])
  {
  }

  lemma NoteStillEnded(start: Db, log: seq<Cmd>, s: NoteSource, k: nat, j: nat)
    requires j < k < |log| && NoteEndedAt(start, log, s, k, j) && Live(At(start, log, k + 1), s)
    requires SameVersion(At(start, log, k), At(start, log, k + 1), s)
    requires At(start, log, k + 1).notes[s.note] == At(start, log, k).notes[s.note]
    ensures NoteEndedAt(start, log, s, k + 1, j)
  {
    hide AcceptedNote, GaveUpNote, At;
  }

  /** Main result. A note's job that is closed was ended by an accepted text, or given up, for the
      version that still stands, and the note is as that left it. */
  lemma {:induction false} NoteClosedWasEnded(start: Db, log: seq<Cmd>, k: nat, s: NoteSource)
    requires Begun(start, log) && k <= |log| && Live(At(start, log, k), s) && NoteClosed(At(start, log, k), s)
    ensures exists j | 0 <= j < k :: NoteEndedAt(start, log, s, k, j)
  {
    hide Begun, At, NoteQueued, NoteGoesOn, Live, NoteClosed, Ends, SameVersion, State;
    if k == 0 {
      NoNotesAtStart(start, log, s);
    } else {
      AlwaysSourced(start, log, k - 1);
      NextNote(start, log, k - 1, s);
      var db, db' := At(start, log, k - 1), At(start, log, k);
      if Live(db, s) { EveryNoteHasItsJob(start, log, k - 1, s); }
      CloseStep(db, log[k - 1], db', s);
      if Ends(db, log[k - 1], db', s) {
        assert NoteEndedAt(start, log, s, k, k - 1);
      } else {
        NoteClosedWasEnded(start, log, k - 1, s);
        var j :| 0 <= j < k - 1 && NoteEndedAt(start, log, s, k - 1, j);
        NoteStillEnded(start, log, s, k - 1, j);
      }
    }
  }

  /** The version a worker read of a note, at point i of the log. */
  ghost predicate NoteReadAt(start: Db, log: seq<Cmd>, s: NoteSource, i: nat, version: nat)
    requires i <= |log|
  {
    WrittenFrom(At(start, log, i), s) && NoteVersion(At(start, log, i), s.note) == version
  }

  /** What step j ended the note's job with: if a text, every reading of the source after the note's
      version was read, since when no import changed it untold, gave the text the source has now. */
  ghost predicate NoteServedBy(start: Db, log: seq<Cmd>, s: NoteSource, j: nat)
    requires j < |log| && s.post in State(start, log).posts
  {
    && NoteEndedAt(start, log, s, |log|, j)
    && (AcceptedNote(At(start, log, j), log[j], s.note) ==>
          forall i, m | 0 <= i <= m <= |log| && i <= j && NoteReadAt(start, log, s, i, log[j].version) ::
            ReadsNow(start, log, s.post, m))
  }

  lemma LiveIsWritten(db: Db, s: NoteSource)
    requires Live(db, s) && Sourced(db)
    ensures WrittenFrom(db, s) && s.note in db.notes && s.post in db.posts
  {
  }

  /** The source's version, when the note's version was read that an accepted text was written for, is
      the one it has now. */
  lemma SourceRead(start: Db, log: seq<Cmd>, s: NoteSource, i: nat, j: nat, k: nat)
    requires History(start, log) && NoteHistory(start, log) && i <= j < k <= |log| && NoteEndedAt(start, log, s, k, j)
    requires NoteReadAt(start, log, s, i, NoteVersion(At(start, log, j), s.note))
    ensures s.post in At(start, log, k).posts &&
            ReadAt(start, log, s.post, i, At(start, log, k).posts[s.post].threadVersion)
  {
    HistoryBegun(start, log);
    AlwaysSourced(start, log, j);
    hide History, NoteHistory, Begun, At, Sourced, Ends, NoteVersion, OneSource;
    LiveIsWritten(At(start, log, j), s);
    NoteOf(At(start, log, i), s);
    NoteLasts(start, log, s, i, j);
    VersionOfOneSource(At(start, log, i), s);
    VersionOfOneSource(At(start, log, j), s);
    VersionsNeverGoBack(start, log, s.post, i, j);
  }

  lemma AcceptedNoteVersion(db: Db, c: Cmd, n: Id)
    requires AcceptedNote(db, c, n)
    ensures c.SetNote? && c.version == NoteVersion(db, n)
  {
  }

  /** One reading of the source, at m, after the note's version was read, at i. */
  ghost predicate ReadsNow(start: Db, log: seq<Cmd>, p: Id, m: nat)
    requires m <= |log| && p in State(start, log).posts
  {
    p in At(start, log, m).posts &&
    (ToldMeanwhile(start, log, p, m, |log|) ==> ViewOf(At(start, log, m), p) == ViewOf(State(start, log), p))
  }

  lemma ReadingIsNow(start: Db, log: seq<Cmd>, s: NoteSource, i: nat, m: nat, j: nat)
    requires History(start, log) && NoteHistory(start, log) && i <= j < |log| && i <= m <= |log|
    requires NoteEndedAt(start, log, s, |log|, j) && s.post in State(start, log).posts
    requires NoteReadAt(start, log, s, i, NoteVersion(At(start, log, j), s.note))
    ensures ReadsNow(start, log, s.post, m)
  {
    assert log[..|log|] == log;
    SourceRead(start, log, s, i, j, |log|);
    hide History, NoteHistory, NoteEndedAt, NoteReadAt, NoteVersion, View, State, ToldMeanwhile, ReadAt;
    TextSinceRead(start, log, s.post, i, m, |log|);
  }

  lemma EndedIsLive(start: Db, log: seq<Cmd>, s: NoteSource, j: nat)
    requires j < |log| && NoteEndedAt(start, log, s, |log|, j)
    ensures s.post in State(start, log).posts
  {
    assert log[..|log|] == log;
    hide State, AcceptedNote, Ends;
  }

  lemma EndedNoteIsServed(start: Db, log: seq<Cmd>, s: NoteSource, j: nat)
    requires History(start, log) && NoteHistory(start, log) && j < |log| && NoteEndedAt(start, log, s, |log|, j)
    ensures s.post in State(start, log).posts && NoteServedBy(start, log, s, j)
  {
    EndedIsLive(start, log, s, j);
    hide History, NoteHistory, AcceptedNote, State, At, NoteReadAt, NoteVersion, NoteEndedAt, ReadsNow;
    if AcceptedNote(At(start, log, j), log[j], s.note) {
      AcceptedNoteVersion(At(start, log, j), log[j], s.note);
      forall i, m | 0 <= i <= m <= |log| && i <= j && NoteReadAt(start, log, s, i, log[j].version)
        ensures ReadsNow(start, log, s.post, m)
      {
        ReadingIsNow(start, log, s, i, m, j);
      }
    }
  }

  /** Main result: no work is lost. In every reachable state, for every active note written from another
      post: it is stale and waits to be written for the version it has; or the last worker gave up
      after MAX_ATTEMPTS tries at exactly this version, and it is still stale; or its text is one
      whose worker read, whenever it looked between reading the version and now, the very text its
      source has now, unless an import has since changed the source untold. */
  lemma EveryNoteIsServed(start: Db, log: seq<Cmd>, s: NoteSource)
    requires History(start, log) && NoteHistory(start, log) && Live(State(start, log), s)
    ensures Waits(State(start, log), s) || exists j | 0 <= j < |log| :: NoteServedBy(start, log, s, j)
  {
    assert At(start, log, |log|) == State(start, log) by { assert log[..|log|] == log; }
    HistoryBegun(start, log);
    EveryNoteHasItsJob(start, log, |log|, s);
    hide History, NoteHistory, Begun, State, At, NoteServedBy, NoteEndedAt;
    if !Waits(State(start, log), s) {
      NoteClosedWasEnded(start, log, |log|, s);
      var j :| 0 <= j < |log| && NoteEndedAt(start, log, s, |log|, j);
      EndedNoteIsServed(start, log, s, j);
    }
  }
}
