/**
 A group's whole log: its commands, one after another, and what holds in every state they can
 reach (internal/cmd). A command that fails leaves the tables as they were.
 */
module GroupLog {
  import opened Types
  import opened Jobs
  import opened Tables
  import opened Content
  import opened Archive
  import opened Index
  import opened Imports
  import opened IndexFree
  import C = Commands
  import Purge

  datatype Cmd =
    | CreatePost(id: Id, user: Id, title: string, body: string, images: seq<Id>, at: int)
    | EditPost(id: Id, title: string, body: string, at: int)
    | CreateComment(id: Id, post: Id, parent: Id, user: Id, body: string, image: Option<Id>, at: int)
    | EditComment(id: Id, body: string, at: int)
    | SoftDelete(item: Item, byMod: bool, at: int)
    | Restore(item: Item, at: int)
    | Approve(item: Item, at: int)
    | Report(item: Item, user: Id, at: int)
    | Vote(item: Item, user: Id, keep: bool, at: int)
    | SetLocked(id: Id, on: bool)
    | SetCheck(id: Id, worker: string, version: nat, verdict: C.Verdict, links: seq<C.CheckLink>, at: int)
    | SetCommentCheck(id: Id, worker: string, version: nat, verdict: C.Verdict, at: int)
    | SetDigest(id: Id, worker: string, version: nat, digest: string, at: int)
    | SetNote(note: Id, worker: string, version: nat, text: string, noChange: bool, at: int)
    | ClaimJob(key: JobKey, worker: string, at: int)
    | FailJob(key: JobKey, worker: string, error: string, at: int)
    | AddLink(a: Id, b: Id, noteA: Id, noteB: Id, at: int)
    | RemoveLink(a: Id, b: Id, who: Id)
    | LinkSister(group: Id, host: Id, other: Id, note: Id, ext: nat, at: int)
    | MarkSisterStale(note: Id, version: nat, at: int)
    | MoveUnder(id: Id, under: Id, at: int)
    | MoveOut(id: Id, at: int)
    | ImportPost(id: Id, ref: string, title: string, body: string, images: seq<Id>, cms: seq<C.ArchiveComment>, at: int)
    | RequestArchiveRemoval(id: Id, at: int)
    | PurgeGroup(before: int)
    | Settle(members: map<Id, Member>, holdFirstPost: bool, voteThreshold: nat)  // membership and settings
    | IndexPage(page: Id)                                                        // a FAQ entry or outside page

  function Step(db: Db, c: Cmd): Option<Db> {
    match c
    case CreatePost(id, user, title, body, images, at) => C.CreatePost(db, id, user, title, body, images, at)
    case EditPost(id, title, body, at) => C.EditPost(db, id, title, body, at)
    case CreateComment(id, post, parent, user, body, image, at) =>
      C.CreateComment(db, id, post, parent, user, body, image, at)
    case EditComment(id, body, at) => C.EditComment(db, id, body, at)
    case SoftDelete(item, byMod, at) => C.SoftDelete(db, item, byMod, at)
    case Restore(item, at) => C.Restore(db, item, at)
    case Approve(item, at) => C.Approve(db, item, at)
    case Report(item, user, at) => C.Report(db, item, user, at)
    case Vote(item, user, keep, at) => C.Vote(db, item, user, keep, at)
    case SetLocked(id, on) => C.SetLocked(db, id, on)
    case SetCheck(id, worker, version, verdict, links, at) => C.SetCheck(db, id, worker, version, verdict, links, at)
    case SetCommentCheck(id, worker, version, verdict, at) => C.SetCommentCheck(db, id, worker, version, verdict, at)
    case SetDigest(id, worker, version, digest, at) => C.SetDigest(db, id, worker, version, digest, at)
    case SetNote(n, worker, version, text, noChange, at) => C.SetNote(db, n, worker, version, text, noChange, at)
    case ClaimJob(key, worker, at) => Some(db.(jobs := Claim(db.jobs, key, worker, at)))
    case FailJob(key, worker, error, at) => Some(db.(jobs := Fail(db.jobs, key, worker, error, at)))
    case AddLink(a, b, noteA, noteB, at) => C.AddLink(db, a, b, false, noteA, noteB, at)
    case RemoveLink(a, b, who) => C.RemoveLink(db, a, b, who)
    case LinkSister(group, host, other, n, ext, at) =>
      if group == db.group || host !in db.posts then None else C.LinkNote(db, group, host, other, n, ext, at)
    case MarkSisterStale(n, version, at) => C.MarkSisterStale(db, n, version, at)
    case MoveUnder(id, under, at) => C.MoveUnder(db, id, under, at)
    case MoveOut(id, at) => C.MoveOut(db, id, at)
    case ImportPost(id, ref, title, body, images, cms, at) => C.ImportPost(db, id, ref, title, body, images, cms, at)
    case RequestArchiveRemoval(id, at) => C.RequestArchiveRemoval(db, id, at)
    case PurgeGroup(before) => Some(C.PurgeGroup(db, before))
    case Settle(members, hold, threshold) =>
      Some(db.(members := members, holdFirstPost := hold, voteThreshold := threshold))
    case IndexPage(page) => Some(db.(fts := db.fts[page := 0]))
  }

  function Apply(db: Db, c: Cmd): Db {
    match Step(db, c) case Some(d) => d case None => db
  }

  function State(start: Db, log: seq<Cmd>): Db {
    if log == [] then start else Apply(State(start, log[..|log| - 1]), log[|log| - 1])
  }

  /** A group's file when it is created. */
  predicate Blank(db: Db) {
    db.posts == map[] && db.comments == map[] && db.jobs == map[] && db.fts == map[] && db.notes == map[] &&
    db.sources == [] && db.links == map[] && db.postRefs == map[] && db.commentRefs == map[]
  }

  /** Whether the ids a command brings for new things are unused, if it goes through. (A command that
      is committed twice fails, or finds what it brought the first time.) */
  ghost predicate Usable(db: Db, c: Cmd) {
    Step(db, c).Some? ==> NewIds(db, c)
  }

  ghost predicate NewIds(db: Db, c: Cmd) {
    match c
    case CreatePost(id, _, _, _, _, _) => FreshId(db, id)
    case CreateComment(id, _, _, _, _, _, _) => FreshId(db, id)
    case ImportPost(id, ref, _, _, _, cms, _) =>
      LeftAlone(db, ref) || ((ref !in db.postRefs ==> FreshId(db, id)) && FreshImport(db, Target(db, id, ref), cms))
    case IndexPage(page) => page !in db.posts && page !in db.comments
    case _ => true
  }

  /** Whether an import, if it does anything, finds the comments that are stored and shown under the
      thread it imports. */
  ghost predicate StaysHome(db: Db, c: Cmd) {
    c.ImportPost? && Step(db, c).Some? && !LeftAlone(db, c.ref) ==> AtHome(db, Target(db, c.id, c.ref), c.cms)
  }

  // ---- The content invariant, command by command ----

  ghost predicate Good(db: Db, full: bool) { ContentOk(db) && IndexedDb(db, full) }

  lemma ContentStep(db: Db, c: Cmd, full: bool)
    requires Good(db, full) && NewIds(db, c) && Step(db, c).Some?
    requires c.CreatePost? || c.EditPost? || c.CreateComment? || c.EditComment? || c.SoftDelete? || c.Restore?
    ensures Good(Step(db, c).value, full)
  {
    hide ContentOk, IndexedDb, FreshId, C.CreatePost, C.EditPost, C.CreateComment, C.EditComment, C.SoftDelete,
      C.Restore;
    match c
    case CreatePost(id, user, title, body, images, at) =>
      CreatePostOk(db, id, user, title, body, images, at);
      CreatePostIndexed(db, id, user, title, body, images, at, full);
    case EditPost(id, title, body, at) =>
      EditPostOk(db, id, title, body, at);
      EditPostIndexed(db, id, title, body, at, full);
    case CreateComment(id, post, parent, user, body, image, at) =>
      CreateCommentOk(db, id, post, parent, user, body, image, at);
      CreateCommentIndexed(db, id, post, parent, user, body, image, at, full);
    case EditComment(id, body, at) =>
      EditCommentOk(db, id, body, at);
      EditCommentIndexed(db, id, body, at, full);
    case SoftDelete(item, byMod, at) =>
      SoftDeleteOk(db, item, byMod, at);
      SoftDeleteIndexed(db, item, byMod, at, full);
    case Restore(item, at) =>
      RestoreOk(db, item, at);
      RestoreIndexed(db, item, at, full);
  }

  lemma ModerationStep(db: Db, c: Cmd, full: bool)
    requires Good(db, full) && Step(db, c).Some?
    requires c.Approve? || c.Report? || c.Vote? || c.SetCheck? || c.SetCommentCheck?
    ensures Good(Step(db, c).value, full)
  {
    hide ContentOk, IndexedDb, C.Approve, C.Report, C.Vote, C.SetCheck, C.SetCommentCheck;
    match c
    case Approve(item, at) =>
      ApproveOk(db, item, at);
      ApproveIndexed(db, item, at, full);
    case Report(item, user, at) =>
      ReportOk(db, item, user, at);
      ReportIndexed(db, item, user, at, full);
    case Vote(item, user, keep, at) =>
      VoteOk(db, item, user, keep, at);
      VoteIndexed(db, item, user, keep, at, full);
    case SetCheck(id, worker, version, verdict, links, at) =>
      SetCheckOk(db, id, worker, version, verdict, links, at);
      SetCheckIndexed(db, id, worker, version, verdict, links, at, full);
    case SetCommentCheck(id, worker, version, verdict, at) =>
      SetCommentCheckOk(db, id, worker, version, verdict, at);
      SetCommentCheckIndexed(db, id, worker, version, verdict, at, full);
  }

  /** The commands of the AI queue, links and settings change nothing the invariant reads. */
  lemma SideStep(db: Db, c: Cmd, full: bool)
    requires Good(db, full) && Step(db, c).Some?
    requires c.SetNote? || c.ClaimJob? || c.FailJob? || c.AddLink? || c.RemoveLink? || c.LinkSister? ||
             c.MarkSisterStale? || c.Settle?
    ensures Good(Step(db, c).value, full)
  {
    SideStepSame(db, c);
    hide Step, ContentOk, IndexedDb, SameContent;
    SameContentOk(db, Step(db, c).value);
    SameContentIndexed(db, Step(db, c).value, full);
  }

  lemma SideStepSame(db: Db, c: Cmd)
    requires Step(db, c).Some?
    requires c.SetNote? || c.ClaimJob? || c.FailJob? || c.AddLink? || c.RemoveLink? || c.LinkSister? ||
             c.MarkSisterStale? || c.Settle?
    ensures SameContent(db, Step(db, c).value)
  {
    hide SameContent, C.AddLink, C.SetNote, C.LinkNote, NoteVersion, Claim, Fail;
    if c.SetNote? {
      SetNoteContent(db, c.note, c.worker, c.version, c.text, c.noChange, c.at);
    } else if c.AddLink? {
      AddLinkSame(db, c.a, c.b, false, c.noteA, c.noteB, c.at);
    } else if c.LinkSister? {
      LinkNoteSame(db, c.group, c.host, c.other, c.note, c.ext, c.at);
    } else if c.RemoveLink? {
      TablesSame(db, Step(db, c).value);
    } else if c.MarkSisterStale? {
      TablesSame(db, Step(db, c).value);
    } else {
      TablesSame(db, Step(db, c).value);
    }
  }

  lemma SetNoteContent(db: Db, n: Id, worker: string, version: nat, text: string, noChange: bool, at: int)
    requires C.SetNote(db, n, worker, version, text, noChange, at).Some?
    ensures SameContent(db, C.SetNote(db, n, worker, version, text, noChange, at).value)
  {
    hide Finish, Accepts, C.Cut, NoteVersion, SameContent;
    var r := C.SetNote(db, n, worker, version, text, noChange, at).value;
    if !Accepts(db.jobs, JobKey(Note, n), worker, version, NoteVersion(db, n)) {
      TablesSame(db, r);
    } else if noChange && db.notes[n].text != "" {
      TablesSame(db, r);
    } else if C.Cut(text) == "" {
      TablesSame(db, r);
    } else {
      TablesSame(db, r);
    }
  }

  lemma ThreadStep(db: Db, c: Cmd, full: bool)
    requires Good(db, full) && Step(db, c).Some? && (c.RequestArchiveRemoval? ==> !full)
    requires c.MoveUnder? || c.MoveOut? || c.RequestArchiveRemoval? || c.PurgeGroup?
    ensures Good(Step(db, c).value, full)
  {
    hide ContentOk, IndexedDb, C.MoveUnder, C.MoveOut, C.RequestArchiveRemoval, C.PurgeGroup;
    match c
    case MoveUnder(id, under, at) =>
      MoveUnderOk(db, id, under, at);
      MoveUnderIndexed(db, id, under, at, full);
    case MoveOut(id, at) =>
      MoveOutOk(db, id, at);
      MoveOutIndexed(db, id, at, full);
    case RequestArchiveRemoval(id, at) =>
      RequestArchiveRemovalOk(db, id, at);
      RequestArchiveRemovalIndexed(db, id, at);
    case PurgeGroup(before) =>
      Purge.PurgeGroupOk(db, before, full);
  }

  lemma ImportStep(db: Db, c: Cmd, full: bool)
    requires Good(db, full) && NewIds(db, c) && c.ImportPost? && Step(db, c).Some?
    ensures ContentOk(Step(db, c).value) && (IndexedDb(Step(db, c).value, full) <==> StaysHome(db, c))
  {
    hide ContentOk, IndexedDb, FreshId, FreshImport, AtHome, C.ImportPost;
    if LeftAlone(db, c.ref) {
      LeftAloneIs(db, c);
    } else {
      ImportPostOk(db, c.id, c.ref, c.title, c.body, c.images, c.cms, c.at);
      ImportKeepsIndexIff(db, c.id, c.ref, c.title, c.body, c.images, c.cms, c.at, full);
    }
  }

  lemma LeftAloneIs(db: Db, c: Cmd)
    requires c.ImportPost? && LeftAlone(db, c.ref) && Step(db, c).Some?
    ensures Step(db, c).value == db
  {
  }

  lemma SetLockedGood(db: Db, id: Id, on: bool, full: bool)
    requires Good(db, full) && id in db.posts
    ensures Good(C.SetLocked(db, id, on).value, full)
  {
    hide ContentOk, IndexedDb;
    var db', p := C.SetLocked(db, id, on).value, db.posts[id].(locked := on);
    PostRowFine(db, id);
    PutPostOk(db, db', id, p);
    NotAComment(db, id);
    PutPostIndexed(db, db', id, p, full);
  }

  lemma NotAComment(db: Db, id: Id)
    requires ContentOk(db) && id in db.posts
    ensures id !in db.comments
  {
  }

  lemma IndexPageOk(db: Db, page: Id, full: bool)
    requires Good(db, full) && page !in db.posts && page !in db.comments
    ensures Good(db.(fts := db.fts[page := 0]), full)
  {
    var db' := db.(fts := db.fts[page := 0]);
    forall i <- db'.fts ensures RowRight(db'.posts, db'.comments, i, db'.fts[i]) {
      if i != page { assert RowRight(db.posts, db.comments, i, db.fts[i]); }
    }
    IndexedExcept(db.posts, db.comments, db.fts, db'.posts, db'.comments, db'.fts, page, full);
  }

  lemma SetDigestGood(db: Db, id: Id, worker: string, version: nat, digest: string, at: int, full: bool)
    requires Good(db, full) && C.SetDigest(db, id, worker, version, digest, at).Some?
    ensures Good(C.SetDigest(db, id, worker, version, digest, at).value, full)
  {
    hide ContentOk, Indexed, Finish, C.Cut, Accepts;
    SetDigestOk(db, id, worker, version, digest, at);
    var r := C.SetDigest(db, id, worker, version, digest, at).value;
    assert SameShown(db, r);
    IndexedStays(db, r, full);
  }

  /** Every command keeps the invariant, except for an import that finds a shown comment stored
      under another thread. */
  lemma StepGood(db: Db, c: Cmd, full: bool)
    requires Good(db, full) && Usable(db, c) && (c.RequestArchiveRemoval? ==> !full)
    ensures Good(Apply(db, c), full) <==> StaysHome(db, c)
  {
    if Step(db, c).Some? && c.ImportPost? {
      hide Step, StaysHome, NewIds, ContentOk, IndexedDb;
      ImportStep(db, c, full);
    } else {
      hide ContentOk, IndexedDb, FreshId, FreshImport, AtHome;
      assert StaysHome(db, c);
      StepKeepsGood(db, c, full);
    }
  }

  lemma StepKeepsGood(db: Db, c: Cmd, full: bool)
    requires Good(db, full) && Usable(db, c) && (c.RequestArchiveRemoval? ==> !full) &&
             (Step(db, c).None? || !c.ImportPost?)
    ensures Good(Apply(db, c), full)
  {
    hide Good, FreshId, FreshImport;
    if Step(db, c).Some? {
      match c
      case CreatePost(_, _, _, _, _, _) => ContentStep(db, c, full);
      case EditPost(_, _, _, _) => ContentStep(db, c, full);
      case CreateComment(_, _, _, _, _, _, _) => ContentStep(db, c, full);
      case EditComment(_, _, _) => ContentStep(db, c, full);
      case SoftDelete(_, _, _) => ContentStep(db, c, full);
      case Restore(_, _) => ContentStep(db, c, full);
      case Approve(_, _) => ModerationStep(db, c, full);
      case Report(_, _, _) => ModerationStep(db, c, full);
      case Vote(_, _, _, _) => ModerationStep(db, c, full);
      case SetCheck(_, _, _, _, _, _) => ModerationStep(db, c, full);
      case SetCommentCheck(_, _, _, _, _) => ModerationStep(db, c, full);
      case SetDigest(id, worker, version, digest, at) => SetDigestGood(db, id, worker, version, digest, at, full);
      case MoveUnder(_, _, _) => ThreadStep(db, c, full);
      case MoveOut(_, _) => ThreadStep(db, c, full);
      case RequestArchiveRemoval(_, _) => ThreadStep(db, c, full);
      case PurgeGroup(_) => ThreadStep(db, c, full);
      case IndexPage(page) => IndexPageOk(db, page, full);
      case SetLocked(id, on) => SetLockedGood(db, id, on, full);
      case _ => SideStep(db, c, full);
    }
  }

  // ---- The same without the index ----

  predicate ByPeople(c: Cmd) {
    c.CreatePost? || c.EditPost? || c.CreateComment? || c.EditComment? || c.SoftDelete? || c.Restore? ||
    c.Approve? || c.Report? || c.Vote? ||
    c.MoveUnder? || c.MoveOut?
  }

  /** Whatever the index holds, a command does the same to everything else. */
  lemma StepAlike(a: Db, b: Db, c: Cmd)
    requires Alike(a, b)
    ensures Agree(Step(a, c), Step(b, c))
  {
    hide Step, Agree;
    if ByPeople(c) { PeopleAlike(a, b, c); } else { OthersAlike(a, b, c); }
  }

  lemma PeopleAlike(a: Db, b: Db, c: Cmd)
    requires Alike(a, b) && ByPeople(c)
    ensures Agree(Step(a, c), Step(b, c))
  {
    hide Agree, Alike, C.SoftDelete, C.Restore, C.Approve, C.Report, C.Vote, C.MoveUnder, C.MoveOut,
      C.CreatePost, C.EditPost, C.CreateComment, C.EditComment;
    match c
    case SoftDelete(item, byMod, at) => SoftDeleteAlike(a, b, item, byMod, at);
    case Restore(item, at) => RestoreAlike(a, b, item, at);
    case Approve(item, at) => ApproveAlike(a, b, item, at);
    case Report(item, user, at) => ReportAlike(a, b, item, user, at);
    case Vote(item, user, keep, at) => VoteAlike(a, b, item, user, keep, at);
    case MoveUnder(id, under, at) => MovesAlike(a, b, id, under, at);
    case MoveOut(id, at) => MovesAlike(a, b, id, id, at);
    case _ =>
      hide Step;
      WritingAlike(a, b, c);
  }

  lemma WritingAlike(a: Db, b: Db, c: Cmd)
    requires Alike(a, b) && (c.CreatePost? || c.EditPost? || c.CreateComment? || c.EditComment?)
    ensures Agree(Step(a, c), Step(b, c))
  {
    hide Agree, Alike, C.CreatePost, C.EditPost, C.CreateComment, C.EditComment;
    match c
    case CreatePost(id, user, title, body, images, at) => CreatePostAlike(a, b, id, user, title, body, images, at);
    case EditPost(id, title, body, at) => EditPostAlike(a, b, id, title, body, at);
    case CreateComment(id, post, parent, user, body, image, at) =>
      CreateCommentAlike(a, b, id, post, parent, user, body, image, at);
    case EditComment(id, body, at) => EditCommentAlike(a, b, id, body, at);
  }

  lemma OthersAlike(a: Db, b: Db, c: Cmd)
    requires Alike(a, b) && !ByPeople(c)
    ensures Agree(Step(a, c), Step(b, c))
  {
    hide Alike, C.SetCheck, C.SetCommentCheck, C.SetDigest, C.SetNote, C.AddLink, C.RemoveLink, C.LinkNote,
      C.MarkSisterStale,
      C.ImportPost, C.RequestArchiveRemoval, C.PurgeGroup, Claim, Fail;
    match c
    case SetCheck(id, worker, version, verdict, links, at) =>
      SetCheckAlike(a, b, id, worker, version, verdict, links, at);
    case SetCommentCheck(id, worker, version, verdict, at) =>
      SetCommentCheckAlike(a, b, id, worker, version, verdict, at);
    case SetDigest(id, worker, version, digest, at) => SetDigestAlike(a, b, id, worker, version, digest, at);
    case SetNote(n, worker, version, text, noChange, at) => NotesAlike(a, b, n, worker, version, text, noChange, at);
    case AddLink(x, y, noteA, noteB, at) => AddLinkAlike(a, b, x, y, false, noteA, noteB, at);
    case RemoveLink(x, y, who) => RemoveLinkAlike(a, b, x, y, who);
    case MarkSisterStale(n, version, at) => SistersAlike(a, b, n, version, at);
    case ImportPost(id, ref, title, body, images, cms, at) =>
      ImportPostAlike(a, b, id, ref, title, body, images, cms, at);
    case RequestArchiveRemoval(id, at) => RemovalAlike(a, b, id, at);
    case PurgeGroup(before) => PurgeAlike(a, b, before);
    case _ => SmallStepAlike(a, b, c);
  }

  lemma SmallStepAlike(a: Db, b: Db, c: Cmd)
    requires Alike(a, b) && (c.ClaimJob? || c.FailJob? || c.LinkSister? || c.Settle? || c.IndexPage? || c.SetLocked?)
    ensures Agree(Step(a, c), Step(b, c))
  {
    hide C.LinkNote, Claim, Fail;
    if c.LinkSister? { LinkNoteAlike(a, b, c.group, c.host, c.other, c.note, c.ext, c.at); }
  }

  lemma SoundIsGood(db: Db)
    requires Sound(db)
    ensures Good(NoIndex(db), false)
  {
  }

  lemma NewWithoutIndex(db: Db, c: Cmd)
    requires NewIds(db, c)
    ensures NewIds(NoIndex(db), c)
  {
  }

  lemma AlikeIsSound(a: Db, b: Db)
    requires ContentOk(a) && Alike(a, b)
    ensures Sound(b)
  {
  }

  /** Every command, whatever an import finds, keeps the invariant but for the index. */
  lemma StepSound(db: Db, c: Cmd)
    requires Sound(db) && Usable(db, c)
    ensures Sound(Apply(db, c))
  {
    hide Step, ContentOk, IndexedDb, NewIds, Sound, StaysHome;
    var bare := NoIndex(db);
    SoundIsGood(db);
    StepAlike(bare, db, c);
    if Step(db, c).Some? {
      NewWithoutIndex(db, c);
      if c.ImportPost? { ImportStep(bare, c, false); } else { StepKeepsGood(bare, c, false); }
      AlikeIsSound(Apply(bare, c), Apply(db, c));
    }
  }

  // ---- Over every run ----

  /** The ids that commands bring for new things are unused when those go through. */
  ghost predicate FreshIds(start: Db, log: seq<Cmd>) {
    forall k | 0 <= k < |log| :: Usable(State(start, log[..k]), log[k])
  }

  ghost predicate Homes(start: Db, log: seq<Cmd>) {
    forall k | 0 <= k < |log| :: StaysHome(State(start, log[..k]), log[k])
  }

  /** A post or comment whose creation is committed a second time is left as it is, and such a log is
      as good as before. */
  lemma CommittedAgain(start: Db, log: seq<Cmd>, c: Cmd)
    requires FreshIds(start, log) && (c.CreatePost? || c.CreateComment?)
    requires c.id in (if c.CreatePost? then State(start, log).posts.Keys else State(start, log).comments.Keys)
    ensures State(start, log + [c]) == State(start, log) && FreshIds(start, log + [c])
  {
    hide NewIds, C.FreshImages, C.ThreadChanged;
    assert (log + [c])[..|log|] == log;
    assert Step(State(start, log), c).None?;
    forall k | 0 <= k < |log| + 1 ensures Usable(State(start, (log + [c])[..k]), (log + [c])[k]) {
      if k < |log| { assert (log + [c])[..k] == log[..k]; }
    }
  }

  lemma FreshPrefix(start: Db, log: seq<Cmd>, n: nat)
    requires FreshIds(start, log) && n <= |log|
    ensures FreshIds(start, log[..n]) && (Homes(start, log) ==> Homes(start, log[..n]))
  {
    assert forall k | 0 <= k < n :: log[..n][..k] == log[..k];
  }

  lemma BlankGood(db: Db)
    requires Blank(db)
    ensures Good(db, true)
  {
  }

  /** Main result. In every state any run can reach, whatever its imports bring: each post's counter
      is its number of shown comments; purge dates are on exactly the soft-deleted items; cleared
      items are not flagged, hidden or held; updates are one deep; references and their indexes agree. */
  lemma {:induction false} EveryStateIsSound(start: Db, log: seq<Cmd>)
    requires Blank(start) && FreshIds(start, log)
    ensures Sound(State(start, log))
  {
    hide Good, Usable, Apply, Sound;
    if log == [] {
      BlankGood(start);
      GoodEither(start);
      assert Sound(start) by { GoodIsSound(start); }
    } else {
      FreshPrefix(start, log, |log| - 1);
      EveryStateIsSound(start, log[..|log| - 1]);
      assert Usable(State(start, log[..|log| - 1]), log[|log| - 1]);
      StepSound(State(start, log[..|log| - 1]), log[|log| - 1]);
    }
  }

  lemma GoodIsSound(db: Db)
    requires Good(db, false)
    ensures Sound(db)
  {
  }

  /** Main result. If imports stay home, the search index too is right in every state: it holds only
      what is shown, each comment under its own thread; and without removal requests all of it. */
  lemma {:induction false} EveryStateIsGood(start: Db, log: seq<Cmd>, full: bool)
    requires Blank(start) && FreshIds(start, log) && Homes(start, log)
    requires full ==> forall k | 0 <= k < |log| :: !log[k].RequestArchiveRemoval?
    ensures Good(State(start, log), full)
  {
    hide Good, Usable, StaysHome, Apply;
    if log == [] {
      BlankGood(start);
      GoodEither(start);
    } else {
      FreshPrefix(start, log, |log| - 1);
      EveryStateIsGood(start, log[..|log| - 1], full);
      assert Usable(State(start, log[..|log| - 1]), log[|log| - 1]);
      assert StaysHome(State(start, log[..|log| - 1]), log[|log| - 1]);
      StepGood(State(start, log[..|log| - 1]), log[|log| - 1], full);
    }
  }

  /** Main result. So the index is right in every state of a run exactly when its imports stay home. */
  lemma EveryStateIsGoodIff(start: Db, log: seq<Cmd>, full: bool)
    requires Blank(start) && FreshIds(start, log)
    requires full ==> forall k | 0 <= k < |log| :: !log[k].RequestArchiveRemoval?
    ensures Homes(start, log) <==> forall n | 0 <= n <= |log| :: Good(State(start, log[..n]), full)
  {
    hide Good, Usable, StaysHome, Apply, State;
    if Homes(start, log) {
      forall n | 0 <= n <= |log| ensures Good(State(start, log[..n]), full) {
        FreshPrefix(start, log, n);
        EveryStateIsGood(start, log[..n], full);
      }
    }
    if forall n | 0 <= n <= |log| :: Good(State(start, log[..n]), full) {
      forall k | 0 <= k < |log| ensures StaysHome(State(start, log[..k]), log[k]) {
        OneMore(start, log, k);
        assert Usable(State(start, log[..k]), log[k]);
        StepGood(State(start, log[..k]), log[k], full);
      }
    }
  }

  lemma OneMore(start: Db, log: seq<Cmd>, k: nat)
    requires k < |log|
    ensures State(start, log[..k + 1]) == Apply(State(start, log[..k]), log[k])
  {
    hide Apply;
    assert log[..k + 1][..k] == log[..k];
  }

  lemma GoodEither(db: Db)
    requires Good(db, true)
    ensures Good(db, false)
  {
    assert forall p | p in db.posts :: PostIndexed(db.posts, db.fts, p, true);
    forall c | c in db.comments ensures CommentIndexed(db.comments, db.fts, c, false) {
      assert CommentIndexed(db.comments, db.fts, c, true);
    }
  }
}
