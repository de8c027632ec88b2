/**
 Links between posts, and their notes: what linking and unlinking leave, and that a link somebody
 removed is never made again by a machine (internal/cmd/links.go).
 */
module Links {
  import opened Types
  import opened Jobs
  import opened Tables
  import opened Content
  import opened Index
  import opened IndexFree
  import opened GroupLog
  import opened Digests
  import opened Citing
  import opened Notes
  import C = Commands
  import Effects
  import NoteWork
  import Purged

  // ---- What linking leaves ----

  /** Note n sits on host and is written from post other of this group. */
  predicate Between(db: Db, n: Id, host: Id, group: Id, other: Id) {
    n in db.notes && db.notes[n].host == host && NoteSource(n, group, other) in db.sources
  }

  lemma {:induction false} FindNoteFinds(db: Db, sources: seq<NoteSource>, group: Id, host: Id, other: Id)
    requires forall s <- sources :: s in db.sources
    ensures match C.FindNote(db.notes, sources, group, host, other)
            case Some(n) => Between(db, n, host, group, other)
            case None =>
              forall n :: n in db.notes && db.notes[n].host == host ==> NoteSource(n, group, other) !in sources
  {
    if sources != [] {
      FindNoteFinds(db, sources[1..], group, host, other);
      assert sources == [sources[0]] + sources[1..];
    }
  }

  /** The note's row after it was linked: active again, to be written, and not behind what it is told. */
  predicate Relinked(was: NoteRow, now: NoteRow, ext: nat) {
    now.active && now.removedBy.None? && now.stale && now.host == was.host && now.text == was.text &&
    now.ext == if was.ext < ext then ext else was.ext
  }

  /** One note is linked, the one there was or a new one, and queued for the version it has; the rest stays. */
  ghost predicate OneLinked(db: Db, r: Db, group: Id, host: Id, other: Id, n: Id, ext: nat) {
    && Between(r, n, host, group, other)
    && r.notes == db.notes[n := r.notes[n]]
    && (if n in db.notes
        then Between(db, n, host, group, other) && Relinked(db.notes[n], r.notes[n], ext) && r.sources == db.sources
        else (forall m :: !Between(db, m, host, group, other)) && r.notes[n] == NoteRow(host, "", true, true, None, ext) &&
             r.sources == db.sources + [NoteSource(n, group, other)])
    && NoteKey(n) in r.jobs && r.jobs[NoteKey(n)].doneAt.None? && r.jobs[NoteKey(n)].refVersion == NoteVersion(r, n)
    && (forall k | k != NoteKey(n) :: Find(r.jobs, k) == Find(db.jobs, k))
    && r == db.(notes := r.notes, sources := r.sources, jobs := r.jobs)
  }

  lemma NewlyLinked(db: Db, group: Id, host: Id, other: Id, id: Id, ext: nat, at: int)
    requires C.FindNote(db.notes, db.sources, group, host, other).None? &&
             C.LinkNote(db, group, host, other, id, ext, at).Some?
    ensures OneLinked(db, C.LinkNote(db, group, host, other, id, ext, at).value, group, host, other, id, ext)
  {
    FindNoteFinds(db, db.sources, group, host, other);
    hide C.FindNote, NoteVersion;
    var linked := db.(notes := db.notes[id := NoteRow(host, "", true, true, None, ext)],
                      sources := db.sources + [NoteSource(id, group, other)]);
    JobsDoNotCount(linked, C.LinkNote(db, group, host, other, id, ext, at).value.jobs, id);
  }

  lemma LinkedAgain(db: Db, group: Id, host: Id, other: Id, id: Id, ext: nat, at: int)
    requires C.FindNote(db.notes, db.sources, group, host, other).Some? &&
             C.LinkNote(db, group, host, other, id, ext, at).Some?
    ensures OneLinked(db, C.LinkNote(db, group, host, other, id, ext, at).value, group, host, other,
                      C.FindNote(db.notes, db.sources, group, host, other).value, ext)
  {
    FindNoteFinds(db, db.sources, group, host, other);
    hide C.FindNote, NoteVersion;
    var n := C.FindNote(db.notes, db.sources, group, host, other).value;
    var row := db.notes[n].(active := true, removedBy := None, stale := true,
                            ext := if db.notes[n].ext < ext then ext else db.notes[n].ext);
    JobsDoNotCount(db.(notes := db.notes[n := row]), C.LinkNote(db, group, host, other, id, ext, at).value.jobs, n);
  }

  /** The note on host written from the other post is found, or made with the id that was brought. */
  lemma LinkNoteIs(db: Db, group: Id, host: Id, other: Id, id: Id, ext: nat, at: int)
    requires C.LinkNote(db, group, host, other, id, ext, at).Some?
    ensures exists n :: OneLinked(db, C.LinkNote(db, group, host, other, id, ext, at).value, group, host, other, n, ext) &&
              (n in db.notes || n == id)
  {
    var found := C.FindNote(db.notes, db.sources, group, host, other);
    FindNoteFinds(db, db.sources, group, host, other);
    hide C.LinkNote, C.FindNote, OneLinked;
    if found.Some? { LinkedAgain(db, group, host, other, id, ext, at); } else {
      NewlyLinked(db, group, host, other, id, ext, at);
    }
  }

  /** It fails only for want of a free id. */
  lemma LinkNoteRefusedIff(db: Db, group: Id, host: Id, other: Id, id: Id, ext: nat, at: int)
    ensures C.LinkNote(db, group, host, other, id, ext, at).None? <==>
            (forall n :: !Between(db, n, host, group, other)) &&
            (id in db.notes || NoteSource(id, group, other) in db.sources)
  {
    FindNoteFinds(db, db.sources, group, host, other);
    hide C.FindNote, NoteVersion, Schedule;
  }

  function Pair(a: Id, b: Id): (Id, Id) { if a < b then (a, b) else (b, a) }

  /** An active note on host is written from the other post. */
  ghost predicate NotedOn(db: Db, host: Id, other: Id) {
    exists n :: Between(db, n, host, db.group, other) && db.notes[n].active
  }

  lemma LinkedIsNoted(db: Db, r: Db, host: Id, other: Id, n: Id)
    requires OneLinked(db, r, db.group, host, other, n, 0)
    ensures NotedOn(r, host, other) && r.links == db.links && r.group == db.group && r.posts == db.posts
    ensures forall x, y :: NotedOn(db, x, y) ==> NotedOn(r, x, y)
  {
    hide NoteVersion;
    forall x, y | NotedOn(db, x, y) ensures NotedOn(r, x, y) {
      var m :| Between(db, m, x, db.group, y) && db.notes[m].active;
      assert Between(r, m, x, r.group, y) && r.notes[m].active;
    }
  }

  lemma LinkNoteNotes(db: Db, host: Id, other: Id, id: Id, at: int)
    requires C.LinkNote(db, db.group, host, other, id, 0, at).Some?
    ensures var r := C.LinkNote(db, db.group, host, other, id, 0, at).value;
            NotedOn(r, host, other) && r.links == db.links && r.group == db.group && r.posts == db.posts &&
            forall x, y :: NotedOn(db, x, y) ==> NotedOn(r, x, y)
  {
    LinkNoteIs(db, db.group, host, other, id, 0, at);
    hide C.LinkNote, OneLinked, NotedOn;
    var r := C.LinkNote(db, db.group, host, other, id, 0, at).value;
    var n :| OneLinked(db, r, db.group, host, other, n, 0) && (n in db.notes || n == id);
    LinkedIsNoted(db, r, host, other, n);
  }

  /** Main result. Linking two shown posts leaves an active note on each, written from the other; unless they
      are linked already, or a machine would link what somebody unlinked: then nothing changes. */
  lemma AddLinkIs(db: Db, a: Id, b: Id, auto: bool, noteA: Id, noteB: Id, at: int)
    requires C.AddLink(db, a, b, auto, noteA, noteB, at).Some?
    ensures var r, known := C.AddLink(db, a, b, auto, noteA, noteB, at).value, Pair(a, b) in db.links;
            && a != b && a in db.posts && b in db.posts && Shown(db.posts[a].status) && Shown(db.posts[b].status)
            && if known && (auto || db.links[Pair(a, b)]) then r == db
               else r.links == db.links[Pair(a, b) := true] && r.posts == db.posts && NotedOn(r, a, b) && NotedOn(r, b, a)
  {
    hide C.LinkNote, NotedOn;
    if !(Pair(a, b) in db.links && (db.links[Pair(a, b)] || auto)) {
      var linked := db.(links := db.links[Pair(a, b) := true]);
      LinkNoteNotes(linked, a, b, noteA, at);
      LinkNoteNotes(C.LinkNote(linked, db.group, a, b, noteA, 0, at).value, b, a, noteB, at);
    }
  }

  /** Unlinking marks the pair, and takes the notes between them off, in either direction; all others stay. */
  lemma RemoveLinkIs(db: Db, a: Id, b: Id, who: Id)
    ensures C.RemoveLink(db, a, b, who).None? <==> Pair(a, b) !in db.links
    ensures C.RemoveLink(db, a, b, who).Some? ==>
              var r := C.RemoveLink(db, a, b, who).value;
              && r.links == db.links[Pair(a, b) := false] && r.notes.Keys == db.notes.Keys
              && (forall n <- db.notes :: r.notes[n] ==
                    if exists s <- db.sources :: s.note == n && {db.notes[n].host, s.post} == {a, b}
                    then db.notes[n].(active := false, removedBy := Some(who)) else db.notes[n])
              && r == db.(links := r.links, notes := r.notes)
  {
    if C.RemoveLink(db, a, b, who).Some? {
      forall n | n in db.notes
        ensures C.RemoveLink(db, a, b, who).value.notes[n] ==
                if exists s <- db.sources :: s.note == n && {db.notes[n].host, s.post} == {a, b}
                then db.notes[n].(active := false, removedBy := Some(who)) else db.notes[n]
      {
        forall x: Id, y: Id ensures {x, y} == {a, b} <==> (x == a && y == b) || (x == b && y == a) {
          SamePair(x, y, a, b);
        }
      }
    }
  }

  lemma SamePair(x: Id, y: Id, a: Id, b: Id)
    ensures {x, y} == {a, b} <==> (x == a && y == b) || (x == b && y == a)
  {
    if {x, y} == {a, b} {
      assert x in {a, b} && y in {a, b} && a in {x, y} && b in {x, y};
    }
  }

  // ---- What a check links ----

  /** What was decided of pairs stays; a match that can be linked is, unless somebody unlinked it. */
  lemma {:induction false} AddLinksAre(db: Db, post: Id, links: seq<C.CheckLink>, at: int)
    requires C.AddLinks(db, post, links, at).Some?
    ensures var r := C.AddLinks(db, post, links, at).value;
            && r.posts == db.posts
            && (forall k <- db.links :: k in r.links && r.links[k] == db.links[k])
            && (forall k <- r.links :: k in db.links || (r.links[k] && exists l <- links :: k == Pair(post, l.other)))
            && (forall l <- links | C.Linkable(db, post, l.other) :: Pair(post, l.other) in r.links)
    decreases |links|
  {
    hide C.AddLink;
    if links != [] {
      var init, l := links[..|links| - 1], links[|links| - 1];
      AddLinksAre(db, post, init, at);
      var before := C.AddLinks(db, post, init, at).value;
      if C.Linkable(before, post, l.other) { AddLinkIs(before, post, l.other, true, l.noteHere, l.noteThere, at); }
    }
  }

  /** What an accepted check leaves of its matches: unless it found a violation, each that can be linked is,
      or was decided before; decided pairs stay. */
  ghost predicate MatchesLinked(db: Db, r: Db, post: Id, links: seq<C.CheckLink>, links1: bool) {
    && (forall k <- db.links :: k in r.links && r.links[k] == db.links[k])
    && if links1 then forall l <- links | C.Linkable(db, post, l.other) :: Pair(post, l.other) in r.links
       else r.links == db.links
  }

  /** Main result. A check counts only from the worker who holds it, of the version the post is. Then its verdict
      decides the post's status, and unless that is a violation the matches are linked. */
  lemma SetCheckDoes(db: Db, id: Id, worker: string, version: nat, verdict: C.Verdict, links: seq<C.CheckLink>, at: int)
    requires ContentOk(db) && C.SetCheck(db, id, worker, version, verdict, links, at).Some?
    ensures id in db.posts
    ensures var r, item := C.SetCheck(db, id, worker, version, verdict, links, at).value, Item(APost, id);
            var accepted := HeldBy(db.jobs, JobKey(Check, id), worker) && version == db.posts[id].version;
            && Effects.Becomes(db, r, item, if accepted then Effects.Judged(db, item, verdict) else db.posts[id].status,
                               db.posts[id].purgeAfter, db.posts[id].aiCleared)
            && MatchesLinked(db, r, id, links, accepted && verdict != C.Violation && Shown(db.posts[id].status))
  {
    var item, k := Item(APost, id), JobKey(Check, id);
    var finished := db.(jobs := Finish(db.jobs, k, worker, version, db.posts[id].version, at));
    CheckJudged(db, finished.jobs, id, verdict, at);
    hide C.ApplyVerdict, C.AddLinks, Finish, HeldBy, ContentOk, Effects.Becomes, Effects.Judged, MatchesLinked;
    NoMatches(db, finished, id, links);
    if Accepts(db.jobs, k, worker, version, db.posts[id].version) {
      var judged := C.ApplyVerdict(finished, item, verdict, at).value;
      if verdict == C.Violation || !Shown(db.posts[id].status) {
        NoMatches(db, judged, id, links);
      } else {
        Matched(db, judged, id, verdict, links, at);
      }
    }
  }

  lemma NoMatches(db: Db, r: Db, post: Id, links: seq<C.CheckLink>)
    requires r.links == db.links
    ensures MatchesLinked(db, r, post, links, false)
  {
  }

  lemma CheckJudged(db: Db, jobs: Queue, id: Id, verdict: C.Verdict, at: int)
    requires ContentOk(db) && id in db.posts
    ensures var finished, item := db.(jobs := jobs), Item(APost, id);
            var r := C.ApplyVerdict(finished, item, verdict, at);
            && r.Some? && r.value.links == db.links
            && Effects.Becomes(db, r.value, item, Effects.Judged(db, item, verdict), db.posts[id].purgeAfter, db.posts[id].aiCleared)
            && Effects.Becomes(db, finished, item, db.posts[id].status, db.posts[id].purgeAfter, db.posts[id].aiCleared)
  {
    Effects.FinishedDoes(db, jobs, Item(APost, id), verdict, at);
    hide ContentOk, Effects.Becomes, Effects.Judged, C.ApplyVerdict;
    JudgedLinks(db, jobs, id, verdict, at);
  }

  /** A post that is judged short of a violation is still shown, and so are the others. */
  lemma StillLinkable(db: Db, judged: Db, id: Id, verdict: C.Verdict, other: Id)
    requires id in db.posts && Shown(db.posts[id].status) && verdict != C.Violation
    requires Effects.Becomes(db, judged, Item(APost, id), Effects.Judged(db, Item(APost, id), verdict),
                             db.posts[id].purgeAfter, db.posts[id].aiCleared)
    ensures C.Linkable(db, id, other) ==> C.Linkable(judged, id, other)
  {
    if C.Linkable(db, id, other) {
      assert id in judged.posts && other in judged.posts;
    }
  }

  lemma Matched(db: Db, judged: Db, id: Id, verdict: C.Verdict, links: seq<C.CheckLink>, at: int)
    requires id in db.posts && Shown(db.posts[id].status) && verdict != C.Violation && judged.links == db.links
    requires C.AddLinks(judged, id, links, at).Some?
    requires Effects.Becomes(db, judged, Item(APost, id), Effects.Judged(db, Item(APost, id), verdict),
                             db.posts[id].purgeAfter, db.posts[id].aiCleared)
    ensures var r := C.AddLinks(judged, id, links, at).value;
            && Effects.Becomes(db, r, Item(APost, id), Effects.Judged(db, Item(APost, id), verdict),
                               db.posts[id].purgeAfter, db.posts[id].aiCleared)
            && MatchesLinked(db, r, id, links, true)
  {
    AddLinksAre(judged, id, links, at);
    AddLinksSame(judged, id, links, at);
    forall l | l in links && C.Linkable(db, id, l.other) ensures C.Linkable(judged, id, l.other) {
      StillLinkable(db, judged, id, verdict, l.other);
    }
    hide C.AddLinks, C.Linkable, Effects.Judged;
    Effects.UnreadBecomesToo(db, judged, C.AddLinks(judged, id, links, at).value, Item(APost, id),
                             Effects.Judged(db, Item(APost, id), verdict));
  }

  // ---- A check fails only for want of free ids ----

  ghost predicate NewNotes(db: Db, links: seq<C.CheckLink>) {
    && (forall l <- links :: l.noteHere !in db.notes && l.noteThere !in db.notes && l.noteHere != l.noteThere)
    && (forall j, k | 0 <= j < k < |links| ::
          {links[j].noteHere, links[j].noteThere} !! {links[k].noteHere, links[k].noteThere})
  }

  lemma LinkNoteWorks(db: Db, group: Id, host: Id, other: Id, id: Id, ext: nat, at: int)
    requires OneSource(db) && id !in db.notes
    ensures C.LinkNote(db, group, host, other, id, ext, at).Some?
    ensures var r := C.LinkNote(db, group, host, other, id, ext, at).value;
            OneSource(r) && r.notes.Keys <= db.notes.Keys + {id}
  {
    LinkNoteRefusedIff(db, group, host, other, id, ext, at);
    hide C.LinkNote, DistinctNotes;
    if C.LinkNote(db, group, host, other, id, ext, at).Some? {
      LinkNoteStays(db, group, host, other, id, ext, at, {id});
    }
  }

  lemma AddLinkWorks(db: Db, a: Id, b: Id, auto: bool, noteA: Id, noteB: Id, at: int)
    requires C.Linkable(db, a, b) && OneSource(db) && noteA !in db.notes && noteB !in db.notes && noteA != noteB
    ensures C.AddLink(db, a, b, auto, noteA, noteB, at).Some?
  {
    var linked := db.(links := db.links[Pair(a, b) := true]);
    assert OneSource(linked);
    hide C.LinkNote, OneSource;
    LinkNoteWorks(linked, db.group, a, b, noteA, 0, at);
    LinkNoteWorks(C.LinkNote(linked, db.group, a, b, noteA, 0, at).value, db.group, b, a, noteB, 0, at);
  }

  lemma NotesBrought(links: seq<C.CheckLink>)
    ensures forall l <- links :: l.noteHere in BroughtBy(links) && l.noteThere in BroughtBy(links)
    ensures forall n <- BroughtBy(links) :: exists k | 0 <= k < |links| :: n == links[k].noteHere || n == links[k].noteThere
  {
    forall n | n in BroughtBy(links)
      ensures exists k | 0 <= k < |links| :: n == links[k].noteHere || n == links[k].noteThere
    {
      var l :| l in links && (n == l.noteHere || n == l.noteThere);
      var k :| 0 <= k < |links| && links[k] == l;
    }
  }

  function BroughtBy(links: seq<C.CheckLink>): set<Id> {
    (set l | l in links :: l.noteHere) + (set l | l in links :: l.noteThere)
  }

  lemma NotYetBrought(db: Db, links: seq<C.CheckLink>)
    requires NewNotes(db, links) && links != []
    ensures var init, l := links[..|links| - 1], links[|links| - 1];
            NewNotes(db, init) && l.noteHere !in BroughtBy(init) && l.noteThere !in BroughtBy(init) &&
            l.noteHere !in db.notes && l.noteThere !in db.notes && l.noteHere != l.noteThere
  {
    var init, l := links[..|links| - 1], links[|links| - 1];
    assert forall x <- init :: x in links;
    NotesBrought(init);
    hide BroughtBy;
    forall k | 0 <= k < |init| ensures {init[k].noteHere, init[k].noteThere} !! {l.noteHere, l.noteThere} {
      assert links[k] == init[k];
    }
    assert forall k | 0 <= k < |init| :: l.noteHere !in {init[k].noteHere, init[k].noteThere};
  }

  /** With new ids for its notes, a check's matches are gone through: one that cannot be linked is skipped. */
  lemma {:induction false} AddLinksWork(db: Db, post: Id, links: seq<C.CheckLink>, at: int)
    requires OneSource(db) && NewNotes(db, links)
    ensures C.AddLinks(db, post, links, at).Some?
    decreases |links|
  {
    hide C.AddLink, OneSource, NewNotes, BroughtBy, C.Linkable;
    if links != [] {
      var init, l := links[..|links| - 1], links[|links| - 1];
      NotYetBrought(db, links);
      AddLinksWork(db, post, init, at);
      NotesBrought(init);
      AddLinksStay(db, post, init, at, BroughtBy(init));
      var before := C.AddLinks(db, post, init, at).value;
      if C.Linkable(before, post, l.other) {
        AddLinkWorks(before, post, l.other, true, l.noteHere, l.noteThere, at);
      }
    }
  }

  /** So a check that comes with new ids is refused only if its post is not there. */
  lemma SetCheckRefusedIff(db: Db, id: Id, worker: string, version: nat, verdict: C.Verdict, links: seq<C.CheckLink>,
                           at: int)
    requires ContentOk(db) && OneSource(db) && NewNotes(db, links)
    ensures C.SetCheck(db, id, worker, version, verdict, links, at).None? <==> id !in db.posts
  {
    if id in db.posts {
      var finished := db.(jobs := Finish(db.jobs, JobKey(Check, id), worker, version, db.posts[id].version, at));
      CheckJudged(db, finished.jobs, id, verdict, at);
      JudgedNotes(db, finished.jobs, id, verdict, at);
      hide C.ApplyVerdict, C.AddLinks, Finish, Accepts, ContentOk, Effects.Becomes, Effects.Judged, NewNotes, OneSource;
      AddLinksWork(C.ApplyVerdict(finished, Item(APost, id), verdict, at).value, id, links, at);
    }
  }

  lemma JudgedNotes(db: Db, jobs: Queue, id: Id, verdict: C.Verdict, at: int)
    requires ContentOk(db) && id in db.posts && C.ApplyVerdict(db.(jobs := jobs), Item(APost, id), verdict, at).Some?
    ensures var r := C.ApplyVerdict(db.(jobs := jobs), Item(APost, id), verdict, at).value;
            (OneSource(db) ==> OneSource(r)) && forall links :: NewNotes(db, links) ==> NewNotes(r, links)
  {
    hide ContentOk, NotesGoOn, C.ApplyVerdict, DistinctNotes;
    ApplyVerdictNotes(db.(jobs := jobs), Item(APost, id), verdict, at);
  }

  // ---- Rejected for good ----

  /** Links are between posts that are there. */
  ghost predicate LinksJoin(db: Db) {
    forall l <- db.links :: l.0 in db.posts && l.1 in db.posts
  }

  /** The links of a step: apart from a person's own linking and unlinking, what was decided of a pair stays,
      and new pairs are of posts that are there. */
  ghost predicate LinksStand(db: Db, r: Db) {
    && (forall l <- db.links :: l in r.links && r.links[l] == db.links[l])
    && (forall l <- r.links :: l in db.links || (l.0 in db.posts && l.1 in db.posts))
  }

  lemma SameLinksStand(db: Db, r: Db)
    requires r.links == db.links
    ensures LinksStand(db, r)
  {
  }

  lemma ContentLinks(db: Db, c: Cmd)
    requires ContentOk(db) && Step(db, c).Some?
    requires !c.AddLink? && !c.RemoveLink? && !c.SetCheck? && !c.PurgeGroup? && !c.LinkSister? && !c.MarkSisterStale?
    ensures Step(db, c).value.links == db.links
  {
    hide ContentOk, Step, SameNotes, NotesGoOn;
    if c.SetDigest? {
      SetDigestNotes(db, c);
    } else if c.Approve? || c.Report? || c.Vote? || c.SetCommentCheck? {
      CommentsHave(db) by { ContentIsSound(db); }
      ModerationNotes(db, c);
    } else if c.SetNote? || c.ClaimJob? || c.FailJob? || c.Settle? || c.IndexPage? || c.SetLocked? {
      PlainLinks(db, c);
    } else {
      ContentNotes(db, c);
    }
  }

  lemma PlainLinks(db: Db, c: Cmd)
    requires Step(db, c).Some? && (c.SetNote? || c.ClaimJob? || c.FailJob? || c.Settle? || c.IndexPage? || c.SetLocked?)
    ensures Step(db, c).value.links == db.links
  {
    hide Claim, Fail, C.SetNote;
    if c.SetNote? { SetNoteLinks(db, c.note, c.worker, c.version, c.text, c.noChange, c.at); }
  }

  lemma SetNoteLinks(db: Db, n: Id, worker: string, version: nat, text: string, noChange: bool, at: int)
    requires C.SetNote(db, n, worker, version, text, noChange, at).Some?
    ensures C.SetNote(db, n, worker, version, text, noChange, at).value.links == db.links
  {
    SetNoteIs(db, n, worker, version, text, noChange, at);
    hide C.SetNote, Finish, Accepts, NoteVersion, Noted;
  }

  lemma SetCheckLinks(db: Db, id: Id, worker: string, version: nat, verdict: C.Verdict, links: seq<C.CheckLink>,
                      at: int)
    requires ContentOk(db) && C.SetCheck(db, id, worker, version, verdict, links, at).Some?
    ensures LinksStand(db, C.SetCheck(db, id, worker, version, verdict, links, at).value)
  {
    var k := JobKey(Check, id);
    var finished := db.(jobs := Finish(db.jobs, k, worker, version, db.posts[id].version, at));
    hide C.ApplyVerdict, C.AddLinks, Finish, Accepts, ContentOk, Follow;
    SameLinksStand(db, finished);
    if Accepts(db.jobs, k, worker, version, db.posts[id].version) {
      var judged := C.ApplyVerdict(finished, Item(APost, id), verdict, at).value;
      JudgedLinks(db, finished.jobs, id, verdict, at);
      SameLinksStand(db, judged);
      if verdict != C.Violation && Shown(db.posts[id].status) {
        AddLinksStand(judged, id, links, at);
        hide C.SetCheck, LinksStand;
        JudgedStands(db, judged, C.AddLinks(judged, id, links, at).value);
      }
    }
  }

  lemma JudgedStands(db: Db, judged: Db, r: Db)
    requires judged.links == db.links && judged.posts.Keys == db.posts.Keys && LinksStand(judged, r)
    ensures LinksStand(db, r)
  {
  }

  lemma AddLinksStand(db: Db, post: Id, links: seq<C.CheckLink>, at: int)
    requires C.AddLinks(db, post, links, at).Some?
    ensures LinksStand(db, C.AddLinks(db, post, links, at).value)
  {
    AddLinksAre(db, post, links, at);
    AddLinksJoin(db, post, links, at);
    hide C.AddLinks;
  }

  lemma {:induction false} AddLinksJoin(db: Db, post: Id, links: seq<C.CheckLink>, at: int)
    requires C.AddLinks(db, post, links, at).Some?
    ensures var r := C.AddLinks(db, post, links, at).value;
            r.posts == db.posts && forall l <- r.links :: l in db.links || (l.0 in db.posts && l.1 in db.posts)
    decreases |links|
  {
    hide C.AddLink;
    if links != [] {
      var init, l := links[..|links| - 1], links[|links| - 1];
      AddLinksJoin(db, post, init, at);
      var before := C.AddLinks(db, post, init, at).value;
      if C.Linkable(before, post, l.other) { AddLinkIs(before, post, l.other, true, l.noteHere, l.noteThere, at); }
    }
  }

  lemma JudgedLinks(db: Db, jobs: Queue, id: Id, verdict: C.Verdict, at: int)
    requires ContentOk(db) && id in db.posts && C.ApplyVerdict(db.(jobs := jobs), Item(APost, id), verdict, at).Some?
    ensures var r := C.ApplyVerdict(db.(jobs := jobs), Item(APost, id), verdict, at).value;
            r.links == db.links && r.posts.Keys == db.posts.Keys
  {
    JobsDoNotMatter(db, db.(jobs := jobs));
    hide ContentOk, NotesGoOn, SameNotes;
    ApplyVerdictNotes(db.(jobs := jobs), Item(APost, id), verdict, at);
    VerdictKeys(db.(jobs := jobs), Item(APost, id), verdict, at);
  }

  lemma VerdictKeys(db: Db, item: Item, verdict: C.Verdict, at: int)
    requires ContentOk(db) && C.Exists(db, item) && C.ApplyVerdict(db, item, verdict, at).Some?
    ensures C.ApplyVerdict(db, item, verdict, at).value.posts.Keys == db.posts.Keys
  {
    hide ContentOk, Effects.Becomes, C.ApplyVerdict;
    Effects.ApplyVerdictDoes(db, item, verdict, at);
    BecomesKeys(db, C.ApplyVerdict(db, item, verdict, at).value, item, Effects.Judged(db, item, verdict),
                C.PurgeOf(db, item), C.Cleared(db, item));
  }

  lemma BecomesKeys(db: Db, r: Db, item: Item, to: Status, purge: Option<int>, cleared: bool)
    requires C.Exists(db, item) && Effects.Becomes(db, r, item, to, purge, cleared)
    ensures r.posts.Keys == db.posts.Keys
  {
  }

  lemma NoteLinks(db: Db, c: Cmd)
    requires (c.LinkSister? || c.MarkSisterStale?) && Step(db, c).Some?
    ensures Step(db, c).value.links == db.links
  {
    hide NoteVersion, Schedule, C.LinkNote;
    if c.LinkSister? { SisterLinks(db, c.group, c.host, c.other, c.note, c.ext, c.at); }
  }

  lemma SisterLinks(db: Db, group: Id, host: Id, other: Id, n: Id, ext: nat, at: int)
    requires C.LinkNote(db, group, host, other, n, ext, at).Some?
    ensures C.LinkNote(db, group, host, other, n, ext, at).value.links == db.links
  {
    hide NoteVersion, Schedule, C.FindNote;
  }

  /** Any command but a person's linking and unlinking, and the purge. */
  lemma StepLinksStand(db: Db, c: Cmd)
    requires ContentOk(db) && Step(db, c).Some? && !c.AddLink? && !c.RemoveLink? && !c.PurgeGroup?
    ensures LinksStand(db, Step(db, c).value)
  {
    hide ContentOk, LinksStand;
    if c.SetCheck? {
      hide C.SetCheck;
      SetCheckLinks(db, c.id, c.worker, c.version, c.verdict, c.links, c.at);
    } else if c.LinkSister? || c.MarkSisterStale? {
      hide Step;
      NoteLinks(db, c);
      SameLinksStand(db, Step(db, c).value);
    } else {
      hide Step;
      ContentLinks(db, c);
      SameLinksStand(db, Step(db, c).value);
    }
  }

  /** Linked by the table: known and not removed. */
  predicate Linked(db: Db, key: (Id, Id)) { key in db.links && db.links[key] }

  /** Whether a person links this pair. */
  predicate LinksPair(c: Cmd, key: (Id, Id)) { c.AddLink? && Pair(c.a, c.b) == key }

  /** The pair was unlinked, or one of the posts is gone. */
  ghost predicate Rejected(db: Db, key: (Id, Id)) {
    if key in db.links then !db.links[key] else key.0 !in db.posts || key.1 !in db.posts
  }

  lemma StandsJoined(db: Db, r: Db, key: (Id, Id))
    requires LinksStand(db, r) && db.posts.Keys <= r.posts.Keys
    ensures LinksJoin(db) ==> LinksJoin(r)
    ensures key in db.links && !db.links[key] ==> key in r.links && !r.links[key]
  {
  }

  lemma PurgeJoins(db: Db, before: int, key: (Id, Id))
    ensures LinksJoin(C.PurgeGroup(db, before))
    ensures key in db.links && !db.links[key] ==> Rejected(C.PurgeGroup(db, before), key)
  {
    Purged.PurgeLeavesPointers(db, before);
    hide C.PurgeGroup;
  }

  lemma AddLinkStands(db: Db, a: Id, b: Id, noteA: Id, noteB: Id, at: int, key: (Id, Id))
    requires C.AddLink(db, a, b, false, noteA, noteB, at).Some?
    ensures var r := C.AddLink(db, a, b, false, noteA, noteB, at).value;
            && (LinksJoin(db) ==> LinksJoin(r))
            && (key in db.links && !db.links[key] && Pair(a, b) != key ==> key in r.links && !r.links[key])
  {
    AddLinkIs(db, a, b, false, noteA, noteB, at);
    hide C.AddLink, NotedOn;
  }

  lemma RemoveLinkStands(db: Db, a: Id, b: Id, who: Id, key: (Id, Id))
    requires C.RemoveLink(db, a, b, who).Some?
    ensures var r := C.RemoveLink(db, a, b, who).value;
            && (LinksJoin(db) ==> LinksJoin(r))
            && (key in db.links && !db.links[key] ==> key in r.links && !r.links[key])
  {
  }

  lemma BareLinks(db: Db, c: Cmd)
    requires Sound(db) && Step(db, c).Some? && !c.AddLink? && !c.RemoveLink? && !c.PurgeGroup?
    ensures LinksStand(db, Apply(db, c))
  {
    hide Step, ContentOk, LinksStand, Alike;
    var bare := NoIndex(db);
    SoundIsGood(db);
    assert Alike(bare, db) by { NoteWork.BareAlike(db); }
    StepAlike(bare, db, c);
    StepLinksStand(bare, c);
    AlikeLinks(bare, Apply(bare, c), db, Apply(db, c));
  }

  lemma AlikeLinks(a: Db, a': Db, b: Db, b': Db)
    requires Alike(a, b) && Alike(a', b') && LinksStand(a, a')
    ensures LinksStand(b, b')
  {
  }

  /** Whatever the command: links stay between posts that are there, and a pair that was unlinked stays so
      unless a person links it. */
  lemma StepKeepsRejected(db: Db, c: Cmd, key: (Id, Id))
    requires Sound(db) && Usable(db, c) && LinksJoin(db)
    ensures LinksJoin(Apply(db, c))
    ensures key in db.links && !db.links[key] && !LinksPair(c, key) ==> Rejected(Apply(db, c), key)
  {
    hide LinksJoin, Sound, Usable, C.AddLink, C.RemoveLink, C.PurgeGroup, LinksStand;
    if Step(db, c).None? {
    } else if c.AddLink? {
      AddLinkStands(db, c.a, c.b, c.noteA, c.noteB, c.at, key);
    } else if c.RemoveLink? {
      RemoveLinkStands(db, c.a, c.b, c.who, key);
    } else if c.PurgeGroup? {
      PurgeJoins(db, c.before, key);
    } else {
      hide Step;
      BareLinks(db, c);
      PostsStay(db, c);
      StandsJoined(db, Apply(db, c), key);
    }
  }

  lemma BlankJoins(start: Db, log: seq<Cmd>)
    requires Begun(start, log)
    ensures LinksJoin(At(start, log, 0))
  {
  }

  lemma {:induction false} LinksAlwaysJoin(start: Db, log: seq<Cmd>, k: nat)
    requires Begun(start, log) && k <= |log|
    ensures LinksJoin(At(start, log, k))
  {
    hide Begun, At, LinksJoin, State, Sound, Usable, Apply;
    if k == 0 {
      BlankJoins(start, log);
    } else {
      LinksAlwaysJoin(start, log, k - 1);
      StepFacts(start, log, k - 1);
      NextState(start, log, k - 1);
      StepKeepsRejected(At(start, log, k - 1), log[k - 1], (0, 0));
    }
  }

  lemma JoinsPosts(db: Db, key: (Id, Id))
    requires LinksJoin(db)
    ensures key in db.links ==> key.0 in db.posts && key.1 in db.posts
  {
  }

  /** A pair one of whose posts has gone is not linked again. */
  lemma GoneStaysRejected(start: Db, log: seq<Cmd>, key: (Id, Id), i: nat, k: nat)
    requires History(start, log) && i <= k < |log|
    requires key.0 in At(start, log, i).posts && key.1 in At(start, log, i).posts
    requires key.0 !in At(start, log, k).posts || key.1 !in At(start, log, k).posts
    ensures key.0 !in At(start, log, k + 1).posts || key.1 !in At(start, log, k + 1).posts
    ensures Rejected(At(start, log, k + 1), key)
  {
    HistoryBegun(start, log);
    LinksAlwaysJoin(start, log, k + 1);
    hide History, Begun, At, LinksJoin;
    JoinsPosts(At(start, log, k + 1), key);
    if key.0 in At(start, log, k + 1).posts { ThreadLasts(start, log, key.0, i, k, k + 1); }
    if key.1 in At(start, log, k + 1).posts { ThreadLasts(start, log, key.1, i, k, k + 1); }
  }

  /** Main result. In every run, once a pair was unlinked it is not linked again, by any number of checks or
      otherwise, until a person links it. */
  lemma {:induction false} RejectedStaysRejected(start: Db, log: seq<Cmd>, key: (Id, Id), i: nat, k: nat)
    requires History(start, log) && i <= k <= |log|
    requires key in At(start, log, i).links && !At(start, log, i).links[key]
    requires forall m | i <= m < k :: !LinksPair(log[m], key)
    ensures Rejected(At(start, log, k), key) && !Linked(At(start, log, k), key)
    decreases k - i
  {
    hide History, Begun, At, LinksJoin, Apply, Sound, Usable;
    if i < k {
      RejectedStaysRejected(start, log, key, i, k - 1);
      HistoryBegun(start, log);
      StepFacts(start, log, k - 1);
      NextState(start, log, k - 1);
      LinksAlwaysJoin(start, log, i);
      LinksAlwaysJoin(start, log, k - 1);
      JoinsPosts(At(start, log, i), key);
      if key in At(start, log, k - 1).links {
        StepKeepsRejected(At(start, log, k - 1), log[k - 1], key);
      } else {
        GoneStaysRejected(start, log, key, i, k - 1);
      }
    }
  }
}
