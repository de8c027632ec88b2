/**
 One group's file: it takes its log's commands one by one, and every replica of it, through any
 crashes and snapshots, holds the state the log says.
 */
module GroupFile {
  import opened Types
  import opened Jobs
  import opened Tables
  import opened Content
  import opened GroupLog
  import opened Digests
  import opened Versions
  import P = PostTx
  import T = ThreadTx
  import C = Commands
  import Replay

  class File {
    var db: Db

    constructor (db: Db)
      ensures this.db == db
    {
      this.db := db;
    }

    /** Runs a command in a transaction: commits what it did, or leaves the file as it was. */
    method Run(c: Cmd) returns (ok: bool)
      modifies this
      ensures ok <==> Step(old(db), c).Some?
      ensures db == Apply(old(db), c)
    {
      var tx := Transact(db, c);
      ok := tx.Some?;
      if ok {
        db := tx.value;
      }
    }

    /** Applying a whole log, in order. */
    method RunAll(log: seq<Cmd>)
      modifies this
      ensures db == State(old(db), log)
    {
      hide Apply;
      for i := 0 to |log|
        invariant db == State(old(db), log[..i])
      {
        assert log[..i + 1][..i] == log[..i];
        var ok := Run(log[i]);
      }
      assert log[..|log|] == log;
    }
  }

  method Transact(tx: Db, c: Cmd) returns (r: Option<Db>)
    ensures r == Step(tx, c)
  {
    hide Step;
    if ByPeople(c) {
      r := TransactPeople(tx, c);
    } else {
      r := TransactOthers(tx, c);
    }
  }

  method TransactPeople(tx: Db, c: Cmd) returns (r: Option<Db>)
    requires ByPeople(c)
    ensures r == Step(tx, c)
  {
    hide C.CreatePost, C.EditPost, C.CreateComment, C.EditComment, C.SoftDelete, C.Restore, C.Approve, C.Report, C.Vote,
      C.MoveUnder, C.MoveOut;
    match c
    case CreatePost(id, user, title, body, images, at) => r := P.CreatePost(tx, id, user, title, body, images, at);
    case EditPost(id, title, body, at) => r := P.EditPost(tx, id, title, body, at);
    case CreateComment(id, post, parent, user, body, image, at) =>
      r := P.CreateComment(tx, id, post, parent, user, body, image, at);
    case EditComment(id, body, at) => r := P.EditComment(tx, id, body, at);
    case SoftDelete(item, byMod, at) => r := P.SoftDelete(tx, item, byMod, at);
    case Restore(item, at) => r := P.Restore(tx, item, at);
    case Approve(item, at) => r := T.Approve(tx, item, at);
    case Report(item, user, at) => r := T.Report(tx, item, user, at);
    case Vote(item, user, keep, at) => r := T.Vote(tx, item, user, keep, at);
    case MoveUnder(id, under, at) => r := T.MoveUnder(tx, id, under, at);
    case MoveOut(id, at) => r := T.MoveOut(tx, id, at);
  }

  method TransactOthers(tx: Db, c: Cmd) returns (r: Option<Db>)
    requires !ByPeople(c)
    ensures r == Step(tx, c)
  {
    hide C.SetCheck, C.SetCommentCheck, C.SetDigest, C.SetNote, C.AddLink, C.RemoveLink, C.LinkNote, C.MarkSisterStale,
      C.ImportPost, C.RequestArchiveRemoval, C.PurgeGroup, Claim, Fail;
    match c
    case SetCheck(id, worker, version, verdict, links, at) =>
      r := T.SetCheck(tx, id, worker, version, verdict, links, at);
    case SetCommentCheck(id, worker, version, verdict, at) =>
      r := T.SetCommentCheck(tx, id, worker, version, verdict, at);
    case SetDigest(id, worker, version, digest, at) => r := T.SetDigest(tx, id, worker, version, digest, at);
    case SetNote(n, worker, version, text, noChange, at) => r := T.SetNote(tx, n, worker, version, text, noChange, at);
    case ClaimJob(key, worker, at) => r := Some(tx.(jobs := Claim(tx.jobs, key, worker, at)));
    case FailJob(key, worker, error, at) => r := Some(tx.(jobs := Fail(tx.jobs, key, worker, error, at)));
    case AddLink(a, b, noteA, noteB, at) => r := T.AddLink(tx, a, b, false, noteA, noteB, at);
    case RemoveLink(a, b, who) => r := C.RemoveLink(tx, a, b, who);
    case LinkSister(group, host, other, n, ext, at) =>
      if group == tx.group || host !in tx.posts {
        r := None;
      } else {
        r := T.LinkNote(tx, group, host, other, n, ext, at);
      }
    case MarkSisterStale(n, version, at) => r := C.MarkSisterStale(tx, n, version, at);
    case ImportPost(id, ref, title, body, images, cms, at) =>
      r := T.ImportPost(tx, id, ref, title, body, images, cms, at);
    case RequestArchiveRemoval(id, at) => r := T.RequestArchiveRemoval(tx, id, at);
    case PurgeGroup(before) =>
      var db := T.PurgeGroup(tx, before);
      r := Some(db);
    case Settle(members, hold, threshold) =>
      r := Some(tx.(members := members, holdFirstPost := hold, voteThreshold := threshold));
    case IndexPage(page) => r := Some(tx.(fts := tx.fts[page := 0]));
    case SetLocked(id, on) => r := C.SetLocked(tx, id, on);
  }

  // ---- Every replica ----

  function AsOutcome(db: Db, c: Cmd): Replay.Outcome<Db> {
    match Step(db, c) case Some(d) => Replay.Commit(d) case None => Replay.Rollback
  }

  lemma {:induction false} FoldIsState(start: Db, log: seq<Cmd>)
    ensures Replay.Fold(AsOutcome, start, log) == State(start, log)
  {
    hide Step;
    if log != [] {
      FoldIsState(start, log[..|log| - 1]);
    }
  }

  /** A replica's file is the state after the part of the log it has seen. */
  lemma ReplicaIsState(start: Db, events: seq<Replay.Event<Cmd>>, n: Replay.NodeId)
    requires n in Replay.Run(AsOutcome, start, events).nodes
    ensures var w := Replay.Run(AsOutcome, start, events);
            w.nodes[n].seen <= |w.log| && w.nodes[n].file.data == At(start, w.log, w.nodes[n].seen)
  {
    hide Step, State;
    var w := Replay.Run(AsOutcome, start, events);
    Replay.EveryFileIsTheFold(AsOutcome, start, events);
    assert Replay.NodeOk(AsOutcome, start, w.log, w.nodes[n]);
    FoldIsState(start, w.log[..w.nodes[n].seen]);
  }

  /** Main result. Take any cluster following this log, with any crashes, replays from earlier
      entries, and snapshots ahead of their labels. In every replica's file the content invariant
      holds, and if imports stay home the index is right. */
  lemma EveryReplicaIsGood(start: Db, events: seq<Replay.Event<Cmd>>, n: Replay.NodeId)
    requires var w := Replay.Run(AsOutcome, start, events);
             n in w.nodes && Blank(start) && FreshIds(start, w.log)
    ensures var w := Replay.Run(AsOutcome, start, events);
            Sound(w.nodes[n].file.data) && (Homes(start, w.log) ==> Good(w.nodes[n].file.data, false))
  {
    hide Good, Step, State, FreshIds, Homes, Sound;
    var w := Replay.Run(AsOutcome, start, events);
    ReplicaIsState(start, events, n);
    FreshPrefix(start, w.log, w.nodes[n].seen);
    EveryStateIsSound(start, w.log[..w.nodes[n].seen]);
    if Homes(start, w.log) { EveryStateIsGood(start, w.log[..w.nodes[n].seen], false); }
  }

  /** So a worker may read from any two replicas, however far behind: if it read the version on one
      and the text on another that is not behind it, and its digest is accepted, the text is the
      thread's text at that moment, if no import changed the thread untold after that replica. */
  lemma TextReadOnAnyReplica(start: Db, events: seq<Replay.Event<Cmd>>, a: Replay.NodeId, b: Replay.NodeId, p: Id,
                             k: nat)
    requires var w := Replay.Run(AsOutcome, start, events);
             a in w.nodes && b in w.nodes && History(start, w.log) && k < |w.log| &&
             w.nodes[a].seen <= w.nodes[b].seen <= k && p in w.nodes[a].file.data.posts &&
             Accepted(At(start, w.log, k), w.log[k], p) &&
             w.log[k].version == w.nodes[a].file.data.posts[p].threadVersion &&
             ToldMeanwhile(start, w.log, p, w.nodes[b].seen, k)
    ensures var w := Replay.Run(AsOutcome, start, events);
            p in w.nodes[b].file.data.posts && p in At(start, w.log, k).posts &&
            ViewOf(w.nodes[b].file.data, p) == ViewOf(At(start, w.log, k), p)
  {
    hide Good, Step, State, History, View, Accepted, ToldMeanwhile;
    var w := Replay.Run(AsOutcome, start, events);
    ReplicaIsState(start, events, a);
    ReplicaIsState(start, events, b);
    AcceptedVersion(At(start, w.log, k), w.log[k], p);
    AcceptedDigestReadThisText(start, w.log, p, w.nodes[a].seen, w.nodes[b].seen, k);
  }
}
