/**
 What a run promises about AI digests: a result that is accepted was computed from the text that
 is there now, and no thread is forgotten (internal/cmd/jobs.go, links.go, internal/ai/worker.go).
 */
module Digests {
  import opened Types
  import opened Jobs
  import opened Tables
  import opened Content
  import opened Versions
  import opened Telling
  import opened Imports
  import opened IndexFree
  import opened GroupLog
  import C = Commands

  /** While thread p's version stands, so does its text. */
  ghost predicate TextStands(db: Db, db': Db, p: Id)
    requires p in db.posts && p in db'.posts
  {
    db.posts[p].threadVersion == db'.posts[p].threadVersion ==> ViewOf(db, p) == ViewOf(db', p)
  }

  /** Whether a command is a digest for p that is accepted: its worker holds the job, and it read
      the version that is still there. */
  predicate Accepted(db: Db, c: Cmd, p: Id) {
    c.SetDigest? && c.id == p && p in db.posts &&
    Accepts(db.jobs, DigestKey(p), c.worker, c.version, db.posts[p].threadVersion)
  }

  /** Whether a command gives up on p's digest: its worker holds the job and has used every try. */
  predicate GaveUp(db: Db, c: Cmd, p: Id) {
    c.FailJob? && c.key == DigestKey(p) && HeldBy(db.jobs, DigestKey(p), c.worker) &&
    db.jobs[DigestKey(p)].attempts >= MAX_ATTEMPTS
  }

  /** What an accepted digest leaves on the post. */
  function Written(c: Cmd): Option<string>
    requires c.SetDigest?
  {
    if C.Cut(c.digest) == "" then None else Some(C.Cut(c.digest))
  }

  /** What a step does to p's digest and its job while p's version stands. */
  ghost predicate JobSteady(db: Db, c: Cmd, db': Db, p: Id)
    requires p in db.posts && p in db'.posts
  {
    var k := DigestKey(p);
    && (k in db.jobs ==> k in db'.jobs && db'.jobs[k].refVersion == db.jobs[k].refVersion)
    && (k in db.jobs && db.jobs[k].doneAt.None? && db'.jobs[k].doneAt.Some? ==> Accepted(db, c, p) || GaveUp(db, c, p))
    && db'.posts[p].digest == if Accepted(db, c, p) then Written(c) else db.posts[p].digest
  }

  /** Thread p's version does not go back; when it moves the digest is queued for it; while it stands
      the digest and its job stay as JobSteady says. */
  ghost predicate VersionSteady(db: Db, c: Cmd, db': Db, p: Id)
    requires p in db.posts && p in db'.posts
  {
    && db.posts[p].threadVersion <= db'.posts[p].threadVersion
    && (db.posts[p].threadVersion < db'.posts[p].threadVersion ==> DigestOpen(db'.posts, db'.jobs, p))
    && (db.posts[p].threadVersion == db'.posts[p].threadVersion ==> JobSteady(db, c, db', p))
  }

  ghost predicate DigestSteady(db: Db, c: Cmd, db': Db, p: Id)
    requires p in db.posts && p in db'.posts
  {
    VersionSteady(db, c, db', p) && TextStands(db, db', p)
  }

  /** Whether an import does anything. */
  predicate Brings(db: Db, c: Cmd) {
    c.ImportPost? && Step(db, c).Some? && !LeftAlone(db, c.ref)
  }

  /** An import, if it does anything, tells thread p or changes nothing that is read there. */
  ghost predicate ToldFor(db: Db, c: Cmd, p: Id) {
    Brings(db, c) ==> TellsReaders(db, ToldThreads(db, c.id, c.ref, c.title, c.body, c.cms), c.cms, p)
  }

  lemma SteadyEnough(db: Db, c: Cmd, db': Db, p: Id)
    requires p in db.posts && p in db'.posts && Steady(db, db', p) && !c.SetDigest?
    ensures DigestSteady(db, c, db', p)
  {
  }

  // ---- Each command ----

  lemma ContentSteady(db: Db, c: Cmd)
    requires Sound(db) && Usable(db, c) && Step(db, c).Some?
    requires c.CreatePost? || c.EditPost? || c.CreateComment? || c.EditComment?
    ensures if c.CreatePost? then Grows(db, Step(db, c).value, c.id) else AllSteady(db, Step(db, c).value)
  {
    hide FreshId, Grows, AllSteady, Changes, C.CreatePost, C.EditPost, C.CreateComment, C.EditComment, Threads;
    CommentsHave(db);
    if c.CreatePost? {
      CreatePostTells(db, c.id, c.user, c.title, c.body, c.images, c.at);
      ChangesGrow(db, Step(db, c).value, c.id, {c.id});
    } else if c.EditPost? {
      EditPostTells(db, c.id, c.title, c.body, c.at);
      EditsExist(db, c);
      ChangesGrow(db, Step(db, c).value, c.id, Threads(db.posts, c.id));
    } else if c.CreateComment? {
      CreateCommentTells(db, c.id, c.post, c.parent, c.user, c.body, c.image, c.at);
      EditsExist(db, c);
      ChangesGrow(db, Step(db, c).value, c.post, Threads(db.posts, c.post));
    } else {
      EditsExist(db, c);
      EditCommentTells(db, c.id, c.body, c.at);
      ChangesGrow(db, Step(db, c).value, db.comments[c.id].post, Threads(db.posts, db.comments[c.id].post));
    }
  }

  lemma CommentsHave(db: Db)
    requires Sound(db)
    ensures CommentsHavePosts(db.posts, db.comments) && PostsFine(db.posts) && CommentsFine(db.comments)
  {
  }

  lemma ItemThread(db: Db, item: Item)
    requires Sound(db) && C.Exists(db, item)
    ensures C.ThreadOf(db, item) in db.posts
  {
  }

  lemma EditsExist(db: Db, c: Cmd)
    requires Step(db, c).Some? && CommentsHavePosts(db.posts, db.comments)
    ensures c.EditPost? ==> c.id in db.posts
    ensures c.CreateComment? ==> c.post in db.posts
    ensures c.EditComment? ==> c.id in db.comments && db.comments[c.id].post in db.posts
  {
  }

  lemma DeletionSteady(db: Db, c: Cmd)
    requires Sound(db) && Step(db, c).Some? && (c.SoftDelete? || c.Restore?)
    ensures AllSteady(db, Step(db, c).value)
  {
    hide AllSteady, Changes, C.ThreadChanged, Threads, SameDigests, Sound;
    ItemThread(db, c.item);
    NothingElse(db.jobs);
    NothingSteady(db, db);
    var post := C.ThreadOf(db, c.item);
    if c.SoftDelete? && !Gone(C.StatusOf(db, c.item)) {
      SoftDeleteTells(db, c.item, c.byMod, c.at);
      hide C.SoftDelete;
      ChangesGrow(db, Step(db, c).value, post, Threads(db.posts, post));
    } else if c.Restore? && C.StatusOf(db, c.item) != Visible {
      RestoreTells(db, c.item, c.at);
      hide C.Restore;
      ChangesGrow(db, Step(db, c).value, post, Threads(db.posts, post));
    }
  }

  lemma ModerationSteady(db: Db, c: Cmd)
    requires Sound(db) && Step(db, c).Some?
    requires c.Approve? || c.Report? || c.Vote? || c.SetCheck? || c.SetCommentCheck?
    ensures AllSteady(db, Step(db, c).value)
  {
    CommentsHave(db);
    hide Sound, AllSteady, C.Approve, C.Report, C.Vote, C.SetCheck, C.SetCommentCheck;
    match c
    case Approve(item, at) => ApproveSteady(db, item, at);
    case Report(item, user, at) => ReportSteady(db, item, user, at);
    case Vote(item, user, keep, at) => VoteSteady(db, item, user, keep, at);
    case SetCheck(id, worker, version, verdict, links, at) =>
      SetCheckSteady(db, id, worker, version, verdict, links, at);
    case SetCommentCheck(id, worker, version, verdict, at) =>
      SetCommentCheckSteady(db, id, worker, version, verdict, at);
  }

  lemma SetLockedSteady(db: Db, id: Id, on: bool)
    requires id in db.posts
    ensures AllSteady(db, C.SetLocked(db, id, on).value)
  {
    hide AllSteady, Lines, Quiet;
    var db' := C.SetLocked(db, id, on).value;
    LockIsQuiet(db, id, on);
    QuietSteady(db, db');
  }

  lemma LockIsQuiet(db: Db, id: Id, on: bool)
    requires id in db.posts
    ensures Quiet(db, C.SetLocked(db, id, on).value)
  {
  }

  lemma LinksSteady(db: Db, c: Cmd)
    requires Step(db, c).Some?
    requires c.SetNote? || c.AddLink? || c.RemoveLink? || c.LinkSister? || c.MarkSisterStale? || c.Settle? ||
             c.IndexPage? || c.SetLocked?
    ensures AllSteady(db, Step(db, c).value)
  {
    hide AllSteady, C.SetNote, C.AddLink, C.RemoveLink, C.LinkNote, C.MarkSisterStale, SameDigests;
    if c.SetNote? {
      SetNoteSteady(db, c.note, c.worker, c.version, c.text, c.noChange, c.at);
    } else if c.AddLink? {
      AddLinkSteady(db, c.a, c.b, false, c.noteA, c.noteB, c.at);
    } else if c.RemoveLink? {
      RemoveLinkSteady(db, c.a, c.b, c.who);
    } else if c.LinkSister? {
      LinkNoteSteady(db, c.group, c.host, c.other, c.note, c.ext, c.at);
    } else if c.MarkSisterStale? {
      MarkSisterStaleSteady(db, c.note, c.version, c.at);
    } else if c.SetLocked? {
      SetLockedSteady(db, c.id, c.on);
    } else {
      NothingElse(db.jobs);
      NothingSteady(db, Step(db, c).value);
    }
  }

  lemma ThreadSteady(db: Db, c: Cmd)
    requires Step(db, c).Some? && (c.MoveUnder? || c.MoveOut? || c.RequestArchiveRemoval?)
    ensures AllSteady(db, Step(db, c).value)
  {
    hide AllSteady, C.MoveUnder, C.MoveOut, C.RequestArchiveRemoval;
    match c
    case MoveUnder(id, under, at) => MoveUnderSteady(db, id, under, at);
    case MoveOut(id, at) => MoveOutSteady(db, id, at);
    case RequestArchiveRemoval(id, at) => RequestArchiveRemovalSteady(db, id, at);
  }

  /** What an import, whatever it brings, does to versions and jobs; and exactly when a text stands. */
  lemma ImportDigestSteady(db: Db, c: Cmd, p: Id)
    requires Sound(db) && Brings(db, c) && p in db.posts
    ensures p in Step(db, c).value.posts && VersionSteady(db, c, Step(db, c).value, p)
    ensures TextStands(db, Step(db, c).value, p) <==> ToldFor(db, c, p)
  {
    hide Sound, TellsReaders, ToldThreads, C.ImportPost, View, LeftAlone;
    ImportTellsThreadIff(db, c.id, c.ref, c.title, c.body, c.images, c.cms, c.at, p);
    hide Step;
    var told := ToldThreads(db, c.id, c.ref, c.title, c.body, c.cms);
    if p in told { ToldIsFine(db, told, c.cms, p); }
  }

  lemma ToldIsFine(db: Db, told: set<Id>, cms: seq<C.ArchiveComment>, p: Id)
    requires p in told
    ensures TellsReaders(db, told, cms, p)
  {
  }

  lemma ImportOnlyAdds(db: Db, c: Cmd)
    requires Sound(db) && Brings(db, c)
    ensures OnlyAdds(db, c, Step(db, c).value)
  {
    hide Sound, C.ImportPost, DigestOpen, LeftAlone;
    ImportAddsOne(db, c.id, c.ref, c.title, c.body, c.images, c.cms, c.at);
  }

  // ---- The worker's own commands ----

  lemma ViewIgnoresDigests(db: Db, db': Db, p: Id)
    requires db'.comments == db.comments && db'.posts.Keys == db.posts.Keys && p in db.posts
    requires forall q <- db.posts :: db'.posts[q] == db.posts[q].(digest := db'.posts[q].digest)
    ensures ViewOf(db', p) == ViewOf(db, p)
  {
    hide View, Part;
    UpdatesIgnoreDigests(db.posts, db'.posts, p);
    forall q | q in db.posts ensures Part(db'.posts, db'.comments, q) == Part(db.posts, db.comments, q) {
      PartIgnoresDigest(db, db', q);
    }
    forall q | q in ShownUpdates(db.posts, p) ensures q in db.posts {
      UpdateIsPost(db.posts, p, q);
    }
    SameViews(db, db', p);
  }

  lemma UpdatesIgnoreDigests(posts: Posts, posts': Posts, p: Id)
    requires posts'.Keys == posts.Keys && forall q <- posts :: posts'[q] == posts[q].(digest := posts'[q].digest)
    ensures ShownUpdates(posts', p) == ShownUpdates(posts, p)
  {
  }

  lemma PartIgnoresDigest(db: Db, db': Db, q: Id)
    requires q in db.posts && q in db'.posts && db'.comments == db.comments
    requires db'.posts[q] == db.posts[q].(digest := db'.posts[q].digest)
    ensures Part(db'.posts, db'.comments, q) == Part(db.posts, db.comments, q)
  {
    hide Lines;
  }

  lemma SetDigestIs(db: Db, id: Id, worker: string, version: nat, digest: string, at: int)
    requires C.SetDigest(db, id, worker, version, digest, at).Some?
    ensures var db', p := C.SetDigest(db, id, worker, version, digest, at).value, id;
            p in db.posts && db'.comments == db.comments &&
            db'.posts == (if Accepts(db.jobs, DigestKey(p), worker, version, db.posts[p].threadVersion)
                          then db.posts[p := db.posts[p].(digest := if C.Cut(digest) == "" then None else Some(C.Cut(digest)))]
                          else db.posts) &&
            db'.jobs == Finish(db.jobs, DigestKey(p), worker, version, db.posts[p].threadVersion, at)
  {
    hide C.Cut, Finish, Accepts;
  }

  lemma SetDigestRows(db: Db, c: Cmd)
    requires c.SetDigest? && Step(db, c).Some?
    ensures var db' := Step(db, c).value;
            c.id in db.posts && db'.comments == db.comments &&
            db'.posts == (if Accepted(db, c, c.id) then db.posts[c.id := db.posts[c.id].(digest := Written(c))] else db.posts) &&
            db'.jobs == Finish(db.jobs, DigestKey(c.id), c.worker, c.version, db.posts[c.id].threadVersion, c.at)
  {
    hide C.Cut, Finish, Accepts, C.SetDigest;
    SetDigestIs(db, c.id, c.worker, c.version, c.digest, c.at);
  }

  lemma DigestPut(posts: Posts, id: Id, digest: Option<string>, q: Id)
    requires id in posts && q in posts
    ensures var posts' := posts[id := posts[id].(digest := digest)];
            posts'[q] == posts[q].(digest := if q == id then digest else posts[q].digest)
  {
  }

  lemma SetDigestText(db: Db, c: Cmd, p: Id)
    requires c.SetDigest? && Step(db, c).Some? && p in db.posts
    ensures var db' := Step(db, c).value;
            db'.posts.Keys == db.posts.Keys && ViewOf(db', p) == ViewOf(db, p) &&
            db'.posts[p].threadVersion == db.posts[p].threadVersion &&
            db'.posts[p].digest == if Accepted(db, c, p) then Written(c) else db.posts[p].digest
  {
    SetDigestRows(db, c);
    var db' := Step(db, c).value;
    hide Step, C.Cut, View, Accepts;
    if Accepted(db, c, c.id) {
      forall q | q in db.posts ensures db'.posts[q] == db.posts[q].(digest := db'.posts[q].digest) {
        DigestPut(db.posts, c.id, Written(c), q);
      }
      DigestPut(db.posts, c.id, Written(c), p);
    }
    ViewIgnoresDigests(db, db', p);
  }

  lemma SetDigestSteady(db: Db, c: Cmd, p: Id)
    requires c.SetDigest? && Step(db, c).Some? && p in db.posts
    ensures Step(db, c).value.posts.Keys == db.posts.Keys && DigestSteady(db, c, Step(db, c).value, p)
  {
    SetDigestText(db, c, p);
    SetDigestRows(db, c);
    hide Step, C.Cut, View;
  }

  lemma WorkerSteady(db: Db, c: Cmd, p: Id)
    requires (c.ClaimJob? || c.FailJob?) && p in db.posts
    ensures Step(db, c).Some? && Step(db, c).value.posts == db.posts && DigestSteady(db, c, Step(db, c).value, p)
  {
  }

  lemma PurgeDigestSteady(db: Db, c: Cmd, p: Id)
    requires c.PurgeGroup? && Sound(db) && p in db.posts && p in Step(db, c).value.posts
    ensures DigestSteady(db, c, Step(db, c).value, p)
  {
    CommentsHave(db);
    hide Sound, Steady, DigestSteady, C.PurgeGroup;
    PurgeSteady(db, c.before, p);
    SteadyEnough(db, c, Step(db, c).value, p);
  }

  // ---- Any command ----

  /** What any command but an import does to a thread that is there before and after. */
  lemma OtherDigestSteady(db: Db, c: Cmd, p: Id)
    requires Sound(db) && Usable(db, c) && !Brings(db, c)
    requires p in db.posts && p in Apply(db, c).posts
    ensures DigestSteady(db, c, Apply(db, c), p)
  {
    hide Sound, Usable, Steady, DigestSteady, Step, LeftAlone;
    if Step(db, c).None? {
      NothingDigestSteady(db, c, p);
    } else if c.SetDigest? {
      SetDigestSteady(db, c, p);
    } else if c.ClaimJob? || c.FailJob? {
      WorkerSteady(db, c, p);
    } else if c.PurgeGroup? {
      PurgeDigestSteady(db, c, p);
    } else {
      StepSteady(db, c);
      assert Steady(db, Apply(db, c), p);
      SteadyEnough(db, c, Apply(db, c), p);
    }
  }

  /** Whatever the command: versions do not go back, and digests and their jobs follow them. */
  lemma StepVersionSteady(db: Db, c: Cmd, p: Id)
    requires Sound(db) && Usable(db, c) && p in db.posts && p in Apply(db, c).posts
    ensures VersionSteady(db, c, Apply(db, c), p)
  {
    hide Sound, Usable, VersionSteady, TextStands, Step, LeftAlone;
    if Brings(db, c) { ImportDigestSteady(db, c, p); } else { OtherDigestSteady(db, c, p); }
  }

  /** A command leaves a version standing for the text exactly when, if it is an import, it tells the
      thread or changes nothing that is read there. */
  lemma StepTextStandsIff(db: Db, c: Cmd, p: Id)
    requires Sound(db) && Usable(db, c) && p in db.posts && p in Apply(db, c).posts
    ensures TextStands(db, Apply(db, c), p) <==> ToldFor(db, c, p)
  {
    hide Sound, Usable, VersionSteady, TextStands, Step, LeftAlone, TellsReaders, ToldThreads;
    if Brings(db, c) { ImportDigestSteady(db, c, p); } else { OtherDigestSteady(db, c, p); }
  }

  lemma NothingDigestSteady(db: Db, c: Cmd, p: Id)
    requires p in db.posts && Step(db, c).None?
    ensures DigestSteady(db, c, db, p)
  {
  }

  /** The id of the post a command adds. */
  function Creates(db: Db, c: Cmd): set<Id> {
    if Step(db, c).Some? && (c.CreatePost? || (c.ImportPost? && c.ref !in db.postRefs)) then {c.id} else {}
  }

  /** Posts only come from the commands that create them, and start with a digest to write. */
  ghost predicate OnlyAdds(db: Db, c: Cmd, db': Db) {
    && db'.posts.Keys <= db.posts.Keys + Creates(db, c)
    && forall p | p in db'.posts && p !in db.posts :: DigestOpen(db'.posts, db'.jobs, p)
  }

  /** All the commands but the worker's own, the purge, and imports that do something. */
  lemma StepSteady(db: Db, c: Cmd)
    requires Sound(db) && Usable(db, c) && !Brings(db, c) && Step(db, c).Some?
    requires !c.SetDigest? && !c.ClaimJob? && !c.FailJob? && !c.PurgeGroup?
    ensures OnlyAdds(db, c, Step(db, c).value)
    ensures forall p | p in db.posts :: p in Step(db, c).value.posts && Steady(db, Step(db, c).value, p)
  {
    hide Sound, Usable, Steady, Step, DigestOpen, LeftAlone;
    if c.CreatePost? || c.EditPost? || c.CreateComment? || c.EditComment? {
      ContentSteady(db, c);
    } else if c.SoftDelete? || c.Restore? {
      DeletionSteady(db, c);
    } else if c.Approve? || c.Report? || c.Vote? || c.SetCheck? || c.SetCommentCheck? {
      ModerationSteady(db, c);
    } else if c.ImportPost? {
      LeftAloneIs(db, c);
      NothingElse(db.jobs);
      NothingSteady(db, db);
    } else if c.MoveUnder? || c.MoveOut? || c.RequestArchiveRemoval? {
      ThreadSteady(db, c);
    } else {
      LinksSteady(db, c);
    }
  }

  lemma StepOnlyAdds(db: Db, c: Cmd)
    requires Sound(db) && Usable(db, c)
    ensures OnlyAdds(db, c, Apply(db, c))
  {
    hide Sound, Usable, DigestOpen, Step, LeftAlone;
    if Step(db, c).None? {
    } else if c.SetDigest? {
      SetDigestKeys(db, c);
    } else if c.ClaimJob? || c.FailJob? {
      WorkerKeys(db, c);
    } else if c.PurgeGroup? {
      PurgeKeys(db, c);
    } else if Brings(db, c) {
      ImportOnlyAdds(db, c);
    } else {
      StepSteady(db, c);
    }
  }

  lemma SetDigestKeys(db: Db, c: Cmd)
    requires c.SetDigest? && Step(db, c).Some?
    ensures Step(db, c).value.posts.Keys == db.posts.Keys
  {
  }

  lemma WorkerKeys(db: Db, c: Cmd)
    requires c.ClaimJob? || c.FailJob?
    ensures Step(db, c).Some? && Step(db, c).value.posts == db.posts
  {
  }

  lemma PurgeKeys(db: Db, c: Cmd)
    requires c.PurgeGroup?
    ensures Step(db, c).Some? && Step(db, c).value.posts.Keys <= db.posts.Keys
  {
  }

  // ---- Whole runs ----

  function At(start: Db, log: seq<Cmd>, k: nat): Db
    requires k <= |log|
  {
    State(start, log[..k])
  }

  /** A run of a group's log: it starts blank, and ids are new when they come. Commands may fail, and
      may be committed more than once. */
  ghost predicate Begun(start: Db, log: seq<Cmd>) {
    Blank(start) && FreshIds(start, log)
  }

  /** And the id of a post that is added was never there before, not even before a purge. */
  ghost predicate History(start: Db, log: seq<Cmd>) {
    && Begun(start, log)
    && (forall m, k | 0 <= m <= k < |log| :: Creates(At(start, log, k), log[k]) !! At(start, log, m).posts.Keys)
  }

  lemma NextState(start: Db, log: seq<Cmd>, k: nat)
    requires k < |log|
    ensures At(start, log, k + 1) == Apply(At(start, log, k), log[k])
  {
    hide Apply;
    assert log[..k + 1][..k] == log[..k];
  }

  lemma StepFacts(start: Db, log: seq<Cmd>, k: nat)
    requires Begun(start, log) && k < |log|
    ensures Sound(At(start, log, k)) && Usable(At(start, log, k), log[k])
  {
    hide Sound, Usable, Blank, State;
    FreshPrefix(start, log, k);
    EveryStateIsSound(start, log[..k]);
  }

  /** A thread that is there twice was there in between. */
  lemma {:induction false} ThreadLasts(start: Db, log: seq<Cmd>, p: Id, i: nat, m: nat, k: nat)
    requires History(start, log) && i <= m <= k <= |log|
    requires p in At(start, log, i).posts && p in At(start, log, k).posts
    ensures p in At(start, log, m).posts
    decreases k - m
  {
    if m < k {
      ThreadLasts(start, log, p, i, m + 1, k);
      StepFacts(start, log, m);
      NextState(start, log, m);
      hide Sound, Usable, Apply, State, FreshIds;
      StepOnlyAdds(At(start, log, m), log[m]);
    }
  }

  /** Over any stretch of any run, a thread's version never goes back. */
  lemma {:induction false} VersionsNeverGoBack(start: Db, log: seq<Cmd>, p: Id, i: nat, k: nat)
    requires History(start, log) && i <= k <= |log|
    requires p in At(start, log, i).posts && p in At(start, log, k).posts
    ensures At(start, log, i).posts[p].threadVersion <= At(start, log, k).posts[p].threadVersion
    decreases k - i
  {
    if i < k {
      ThreadLasts(start, log, p, i, i + 1, k);
      VersionsNeverGoBack(start, log, p, i + 1, k);
      StepFacts(start, log, i);
      NextState(start, log, i);
      hide Sound, Usable, Apply, State, History;
      StepVersionSteady(At(start, log, i), log[i], p);
    }
  }

  /** No import between two points of the log changes what is read in thread p without telling it. */
  ghost predicate ToldMeanwhile(start: Db, log: seq<Cmd>, p: Id, i: nat, k: nat)
    requires k <= |log|
  {
    forall n | i <= n < k :: ToldFor(At(start, log, n), log[n], p)
  }

  lemma TextStandsThen(a: Db, b: Db, c: Db, p: Id)
    requires p in a.posts && p in b.posts && p in c.posts && TextStands(a, b, p) && TextStands(b, c, p)
    requires a.posts[p].threadVersion <= b.posts[p].threadVersion <= c.posts[p].threadVersion
    ensures TextStands(a, c, p)
  {
  }

  lemma ToldFrom(start: Db, log: seq<Cmd>, p: Id, i: nat, k: nat)
    requires i < k <= |log| && ToldMeanwhile(start, log, p, i, k)
    ensures ToldFor(At(start, log, i), log[i], p) && ToldMeanwhile(start, log, p, i + 1, k)
  {
  }

  /** Over such a stretch, the same version means the same text. */
  lemma {:induction false} VersionStandsForText(start: Db, log: seq<Cmd>, p: Id, i: nat, k: nat)
    requires History(start, log) && i <= k <= |log| && ToldMeanwhile(start, log, p, i, k)
    requires p in At(start, log, i).posts && p in At(start, log, k).posts
    ensures TextStands(At(start, log, i), At(start, log, k), p)
    decreases k - i
  {
    if i < k {
      hide At, State, History, ToldMeanwhile, ToldFor, TextStands, Apply, Sound, Usable;
      ToldFrom(start, log, p, i, k);
      ThreadLasts(start, log, p, i, i + 1, k);
      VersionsNeverGoBack(start, log, p, i, i + 1);
      VersionsNeverGoBack(start, log, p, i + 1, k);
      VersionStandsForText(start, log, p, i + 1, k);
      HistoryBegun(start, log);
      StepFacts(start, log, i);
      NextState(start, log, i);
      StepTextStandsIff(At(start, log, i), log[i], p);
      TextStandsThen(At(start, log, i), At(start, log, i + 1), At(start, log, k), p);
    } else {
      hide View;
    }
  }

  lemma HistoryBegun(start: Db, log: seq<Cmd>)
    requires History(start, log)
    ensures Begun(start, log)
  {
  }

  /** The version a worker read of p, at point i of the log. */
  ghost predicate ReadAt(start: Db, log: seq<Cmd>, p: Id, i: nat, version: nat)
    requires i <= |log|
  {
    p in At(start, log, i).posts && At(start, log, i).posts[p].threadVersion == version
  }

  /** A version that was read at i and still stands at k stood in between; so the text at m, if no
      import changed the thread untold since, is the text at k. */
  lemma TextSinceRead(start: Db, log: seq<Cmd>, p: Id, i: nat, m: nat, k: nat)
    requires History(start, log) && i <= m <= k <= |log| && p in At(start, log, k).posts
    requires ReadAt(start, log, p, i, At(start, log, k).posts[p].threadVersion)
    ensures p in At(start, log, m).posts
    ensures ToldMeanwhile(start, log, p, m, k) ==> ViewOf(At(start, log, m), p) == ViewOf(At(start, log, k), p)
  {
    hide History, View, At, ToldMeanwhile;
    ThreadLasts(start, log, p, i, m, k);
    VersionsNeverGoBack(start, log, p, i, m);
    VersionsNeverGoBack(start, log, p, m, k);
    if ToldMeanwhile(start, log, p, m, k) { VersionStandsForText(start, log, p, m, k); }
  }

  /** Main result. A worker reads a thread's version at some point of the log, then (once or more,
      on a replica that may lag) its text, and hands in a digest. If it is accepted, every text it
      can have read, since when no import changed the thread untold, is the text of the thread at
      that moment. */
  lemma AcceptedDigestReadThisText(start: Db, log: seq<Cmd>, p: Id, i: nat, m: nat, k: nat)
    requires History(start, log) && i <= m <= k < |log|
    requires p in At(start, log, i).posts && Accepted(At(start, log, k), log[k], p)
    requires log[k].version == At(start, log, i).posts[p].threadVersion
    requires ToldMeanwhile(start, log, p, m, k)
    ensures p in At(start, log, m).posts
    ensures ViewOf(At(start, log, m), p) == ViewOf(At(start, log, k), p)
  {
    hide View, State, History, ToldMeanwhile;
    TextSinceRead(start, log, p, i, m, k);
  }

  // ---- No work is lost ----

  predicate Queued(posts: Posts, jobs: Queue, p: Id)
    requires p in posts
  {
    DigestKey(p) in jobs && jobs[DigestKey(p)].refVersion == posts[p].threadVersion
  }

  /** A step keeps a thread's job for its current version. */
  lemma QueuedStays(db: Db, c: Cmd, db': Db, p: Id)
    requires p in db.posts && p in db'.posts && VersionSteady(db, c, db', p) && Queued(db.posts, db.jobs, p)
    ensures Queued(db'.posts, db'.jobs, p)
  {
  }

  lemma AddedIsQueued(db: Db, c: Cmd, db': Db, p: Id)
    requires p !in db.posts && p in db'.posts && OnlyAdds(db, c, db')
    ensures Queued(db'.posts, db'.jobs, p)
  {
  }

  lemma StepQueues(start: Db, log: seq<Cmd>, k: nat, p: Id)
    requires Begun(start, log) && k < |log| && p in At(start, log, k + 1).posts
    requires p in At(start, log, k).posts ==> Queued(At(start, log, k).posts, At(start, log, k).jobs, p)
    ensures Queued(At(start, log, k + 1).posts, At(start, log, k + 1).jobs, p)
  {
    hide Sound, Usable, Apply, State, Begun, At, VersionSteady, Queued, OnlyAdds;
    StepFacts(start, log, k);
    NextState(start, log, k);
    var db, c := At(start, log, k), log[k];
    if p in db.posts {
      StepVersionSteady(db, c, p);
      QueuedStays(db, c, Apply(db, c), p);
    } else {
      StepOnlyAdds(db, c);
      AddedIsQueued(db, c, Apply(db, c), p);
    }
  }

  /** Main result. In every reachable state, whatever imports brought, each thread has its digest job,
      and the job is for the version the thread has now. */
  lemma {:induction false} EveryThreadHasItsJob(start: Db, log: seq<Cmd>, k: nat, p: Id)
    requires Begun(start, log) && k <= |log| && p in At(start, log, k).posts
    ensures Queued(At(start, log, k).posts, At(start, log, k).jobs, p)
  {
    hide Begun, At, Queued, State;
    if k == 0 {
      BlankHasNoPosts(start, log, p);
    } else {
      if p in At(start, log, k - 1).posts { EveryThreadHasItsJob(start, log, k - 1, p); }
      StepQueues(start, log, k - 1, p);
    }
  }

  lemma BlankHasNoPosts(start: Db, log: seq<Cmd>, p: Id)
    requires Begun(start, log)
    ensures p !in At(start, log, 0).posts
  {
  }

  predicate Closed(db: Db, p: Id) {
    DigestKey(p) in db.jobs && db.jobs[DigestKey(p)].doneAt.Some?
  }

  /** Step j ended p's digest job for the version p still has at k: with the digest that is stored
      at k, or by giving up. */
  ghost predicate EndedAt(start: Db, log: seq<Cmd>, p: Id, k: nat, j: nat)
    requires j < k <= |log|
  {
    && p in At(start, log, j).posts && p in At(start, log, k).posts
    && At(start, log, j).posts[p].threadVersion == At(start, log, k).posts[p].threadVersion
    && if Accepted(At(start, log, j), log[j], p) then At(start, log, k).posts[p].digest == Written(log[j])
       else GaveUp(At(start, log, j), log[j], p)
  }

  /** A job that was ended for the version that still stands was ended for it one step later too. */
  lemma StillEnded(start: Db, log: seq<Cmd>, p: Id, k: nat, j: nat)
    requires j < k < |log| && EndedAt(start, log, p, k, j) && p in At(start, log, k + 1).posts
    requires At(start, log, k + 1).posts[p].threadVersion == At(start, log, k).posts[p].threadVersion
    requires At(start, log, k + 1).posts[p].digest == At(start, log, k).posts[p].digest
    ensures EndedAt(start, log, p, k + 1, j)
  {
  }

  lemma StepCloses(start: Db, log: seq<Cmd>, k: nat, p: Id)
    requires Begun(start, log) && k < |log| && p in At(start, log, k + 1).posts && Closed(At(start, log, k + 1), p)
    ensures var db, db', c := At(start, log, k), At(start, log, k + 1), log[k];
            p in db.posts && db'.posts[p].threadVersion == db.posts[p].threadVersion &&
            db'.posts[p].digest == (if Accepted(db, c, p) then Written(c) else db.posts[p].digest) &&
            (Closed(db, p) || Accepted(db, c, p) || GaveUp(db, c, p))
  {
    hide Sound, Usable, Apply, State, Begun, At, Accepted, GaveUp, Closed, Queued;
    StepFacts(start, log, k);
    NextState(start, log, k);
    if p in At(start, log, k).posts { EveryThreadHasItsJob(start, log, k, p); }
    ClosedStep(At(start, log, k), log[k], p);
  }

  /** Main result. A closed job was ended by an accepted result, or given up, for the version that
      still stands, whatever imports brought. */
  lemma {:induction false} ClosedWasEnded(start: Db, log: seq<Cmd>, k: nat, p: Id)
    requires Begun(start, log) && k <= |log| && p in At(start, log, k).posts && Closed(At(start, log, k), p)
    ensures exists j | 0 <= j < k :: EndedAt(start, log, p, k, j)
  {
    if k == 0 {
      BlankHasNoPosts(start, log, p);
    } else {
      hide State, Begun, At, Accepted, GaveUp, Closed;
      StepCloses(start, log, k - 1, p);
      if Accepted(At(start, log, k - 1), log[k - 1], p) || !Closed(At(start, log, k - 1), p) {
        assert EndedAt(start, log, p, k, k - 1);
      } else {
        ClosedWasEnded(start, log, k - 1, p);
        var j :| 0 <= j < k - 1 && EndedAt(start, log, p, k - 1, j);
        StillEnded(start, log, p, k - 1, j);
      }
    }
  }

  lemma ClosedStep(db: Db, c: Cmd, p: Id)
    requires Sound(db) && Usable(db, c)
    requires p in Apply(db, c).posts && Closed(Apply(db, c), p)
    requires p in db.posts ==> Queued(db.posts, db.jobs, p)
    ensures p in db.posts && Apply(db, c).posts[p].threadVersion == db.posts[p].threadVersion
    ensures Apply(db, c).posts[p].digest == if Accepted(db, c, p) then Written(c) else db.posts[p].digest
    ensures Closed(db, p) || Accepted(db, c, p) || GaveUp(db, c, p)
  {
    hide Sound, Usable, Apply, View, Accepted, GaveUp;
    StepOnlyAdds(db, c);
    StepVersionSteady(db, c, p);
  }

  /** What step j ended p's digest job with: if a digest, it is the one that is stored, and every
      reading of the text after its version was read, since when no import changed the thread untold,
      gave the text the thread has now. */
  ghost predicate ServedBy(start: Db, log: seq<Cmd>, p: Id, j: nat)
    requires j < |log| && p in State(start, log).posts
  {
    && EndedAt(start, log, p, |log|, j)
    && (Accepted(At(start, log, j), log[j], p) ==>
          State(start, log).posts[p].digest == Written(log[j]) &&
          forall i, m | 0 <= i <= m <= |log| && i <= j && ReadAt(start, log, p, i, log[j].version) ::
            p in At(start, log, m).posts &&
            (ToldMeanwhile(start, log, p, m, |log|) ==> ViewOf(At(start, log, m), p) == ViewOf(State(start, log), p)))
  }

  lemma EndedIsServed(start: Db, log: seq<Cmd>, p: Id, j: nat)
    requires History(start, log) && p in State(start, log).posts && j < |log| && EndedAt(start, log, p, |log|, j)
    ensures ServedBy(start, log, p, j)
  {
    hide History, Accepted, View, State, ReadAt, ToldMeanwhile;
    assert log[..|log|] == log;
    if Accepted(At(start, log, j), log[j], p) {
      AcceptedVersion(At(start, log, j), log[j], p);
      forall i, m | 0 <= i <= m <= |log| && i <= j && ReadAt(start, log, p, i, log[j].version)
        ensures p in At(start, log, m).posts
        ensures ToldMeanwhile(start, log, p, m, |log|) ==> ViewOf(At(start, log, m), p) == ViewOf(State(start, log), p)
      {
        TextSinceRead(start, log, p, i, m, |log|);
      }
    }
  }

  /** Main result: no work is lost. In every reachable state, for every thread: its digest waits to
      be written for the version it has; or the last worker gave up after MAX_ATTEMPTS tries at
      exactly this version; or the stored digest is one whose worker read, whenever it looked
      between reading the version and now, the very text the thread has now, unless an import has
      since changed the thread untold. */
  lemma EveryThreadIsServed(start: Db, log: seq<Cmd>, p: Id)
    requires History(start, log) && p in State(start, log).posts
    ensures DigestOpen(State(start, log).posts, State(start, log).jobs,
                       p) || exists j | 0 <= j < |log| :: ServedBy(start, log, p, j)
  {
    hide Begun, State, ServedBy, EndedAt;
    assert log[..|log|] == log;
    EveryThreadHasItsJob(start, log, |log|, p);
    if !DigestOpen(State(start, log).posts, State(start, log).jobs, p) {
      ClosedWasEnded(start, log, |log|, p);
      var j :| 0 <= j < |log| && EndedAt(start, log, p, |log|, j);
      hide History;
      EndedIsServed(start, log, p, j);
    }
  }

  lemma AcceptedVersion(db: Db, c: Cmd, p: Id)
    requires Accepted(db, c, p)
    ensures p in db.posts && c.SetDigest? && c.version == db.posts[p].threadVersion
  {
  }
}
