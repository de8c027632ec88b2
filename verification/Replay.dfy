/**
 How a replica applies one log's committed commands to the one file that log is for
 (internal/cmd/applier.go, internal/cluster/fsm.go).

 A file records the index of the last entry that changed it. An entry at or below that
 index is skipped; an entry whose transaction fails leaves both the contents and the index
 alone, so the recorded index may trail the entries the file has already been handed. Raft
 may hand entries over again after a crash, and a snapshot may hold later entries than its
 label says. The main results say that the file is nevertheless always the plain left fold
 of the log.
 */
module Replay {

  type NodeId = string

  /** What one command does to a file's contents: its transaction commits a new state, or it
      leaves the file alone (it failed and was rolled back, or never opened a transaction). */
  datatype Outcome<S> = Commit(state: S) | Rollback

  datatype FileState<S> = FileState(data: S, index: nat)

  /** The plain meaning of a log: its commands applied once each, in order. */
  function Fold<S, C>(step: (S, C) -> Outcome<S>, s0: S, log: seq<C>): S {
    if log == [] then s0 else
      var before := Fold(step, s0, log[..|log| - 1]);
      match step(before, log[|log| - 1])
      case Commit(s) => s
      case Rollback => before
  }

  /** The (1-based) index of the last command of a log that changes anything. */
  function LastCommit<S, C>(step: (S, C) -> Outcome<S>, s0: S, log: seq<C>): (i: nat)
    ensures i <= |log|
  {
    if log == [] then 0 else
      var init := log[..|log| - 1];
      if step(Fold(step, s0, init), log[|log| - 1]).Commit? then |log| else LastCommit(step, s0, init)
  }

  /** The file every replica should have after the first h entries. */
  function Exact<S, C>(step: (S, C) -> Outcome<S>, s0: S, log: seq<C>, h: nat): FileState<S>
    requires h <= |log|
  {
    FileState(Fold(step, s0, log[..h]), LastCommit(step, s0, log[..h]))
  }

  /** Applier.inTx on values: skip what the file already has, otherwise run the command. */
  function Deliver<S, C>(step: (S, C) -> Outcome<S>, f: FileState<S>, i: nat, c: C): FileState<S> {
    if i <= f.index then f else
      match step(f.data, c)
      case Commit(s) => FileState(s, i)
      case Rollback => f
  }

  lemma FoldSnoc<S(!new), C(!new)>(step: (S, C) -> Outcome<S>, s0: S, log: seq<C>, h: nat)
    requires h < |log|
    ensures Exact(step, s0, log, h + 1) ==
            match step(Fold(step, s0, log[..h]), log[h])
            case Commit(s) => FileState(s, h + 1)
            case Rollback => Exact(step, s0, log, h)
  {
    assert log[..h + 1][..h] == log[..h];
  }

  /** After the last change, nothing the log says makes a difference. */
  lemma {:induction false} QuietTail<S(!new), C(!new)>(step: (S, C) -> Outcome<S>, s0: S, log: seq<C>, m: nat, h: nat)
    requires m <= h <= |log| && LastCommit(step, s0, log[..h]) <= m
    ensures Exact(step, s0, log, m) == Exact(step, s0, log, h)
    decreases h - m
  {
    if m < h {
      FoldSnoc(step, s0, log, h - 1);
      QuietTail(step, s0, log, m, h - 1);
    }
  }

  /** Handing a file any entry it has seen already, or the next one, keeps it exact: a repeated
      entry either is skipped by its index or fails again just as it did the first time. */
  lemma DeliverKeepsExact<S(!new), C(!new)>(step: (S, C) -> Outcome<S>, s0: S, log: seq<C>, h: nat, i: nat)
    requires 1 <= i <= h + 1 && i <= |log| && h <= |log|
    ensures Deliver(step, Exact(step, s0, log, h), i, log[i - 1]) ==
            Exact(step, s0, log, if i <= h then h else i)
  {
    FoldSnoc(step, s0, log, i - 1);
    if i <= h && LastCommit(step, s0, log[..h]) < i {
      QuietTail(step, s0, log, i - 1, h);
      QuietTail(step, s0, log, i, h);
    }
  }

  /** The stored index alone determines the contents, however far each file was fed. */
  lemma IndexDeterminesFile<S(!new), C(!new)>(step: (S, C) -> Outcome<S>, s0: S, log: seq<C>, h: nat, k: nat)
    requires h <= |log| && k <= |log|
    requires Exact(step, s0, log, h).index == Exact(step, s0, log, k).index
    ensures Exact(step, s0, log, h) == Exact(step, s0, log, k)
  {
    QuietTail(step, s0, log, Exact(step, s0, log, h).index, h);
    QuietTail(step, s0, log, Exact(step, s0, log, k).index, k);
  }

  // ---- Runs of a whole cluster following one log ----

  /** One replica. pos is Raft's own record of what it has handed over, which lives in memory;
      seen is the highest entry the file has ever been handed; asked is the label of a
      snapshot that was requested but whose copy is not made yet. */
  datatype Node<S> = Node(file: FileState<S>, pos: nat, seen: nat, asked: set<nat>)

  datatype Snapshot<S> = Snapshot(file: FileState<S>, mark: nat, seen: nat)

  datatype Cluster<S, C> = Cluster(log: seq<C>, nodes: map<NodeId, Node<S>>, snapshots: seq<Snapshot<S>>)

  datatype Event<C> =
    | Append(c: C)                           // a command is committed to the log
    | Join(n: NodeId)                        // a node starts with an empty file
    | ApplyNext(n: NodeId)                   // Raft hands the node its next entry
    | ApplyThenCrash(n: NodeId, to: nat)     // ... and the node dies before Raft records it
    | Crash(n: NodeId, to: nat)              // restart: entries after `to` come again
    | AskSnapshot(n: NodeId)                 // fsm.Snapshot: labelled now ...
    | WriteSnapshot(n: NodeId, mark: nat)   // ... copied later (Persist)
    | Install(n: NodeId, k: nat)             // fsm.Restore: the file is replaced

  function Start<S, C>(): Cluster<S, C> {
    Cluster([], map[], [])
  }

  /** One event. An event that cannot happen leaves the cluster as it is, so every sequence of
      events is a run. A crash may send a node back to any entry it has ever been handed. */
  function Next<S, C>(step: (S, C) -> Outcome<S>, s0: S, w: Cluster<S, C>, e: Event<C>): Cluster<S, C> {
    match e
    case Append(c) => w.(log := w.log + [c])
    case Join(n) =>
      if n in w.nodes then w else w.(nodes := w.nodes[n := Node(FileState(s0, 0), 0, 0, {})])
    case ApplyNext(n) =>
      if n in w.nodes && w.nodes[n].pos < |w.log| then
        var d := w.nodes[n];
        w.(nodes := w.nodes[n := Node(Deliver(step, d.file, d.pos + 1, w.log[d.pos]), d.pos + 1,
                                      if d.seen <= d.pos then d.pos + 1 else d.seen, d.asked)])
      else w
    case ApplyThenCrash(n, to) =>
      if n in w.nodes && w.nodes[n].pos < |w.log| && to <= w.nodes[n].seen then
        var d := w.nodes[n];
        w.(nodes := w.nodes[n := Node(Deliver(step, d.file, d.pos + 1, w.log[d.pos]), to,
                                      if d.seen <= d.pos then d.pos + 1 else d.seen, {})])
      else w
    case Crash(n, to) =>
      if n in w.nodes && to <= w.nodes[n].seen then
        w.(nodes := w.nodes[n := w.nodes[n].(pos := to, asked := {})])
      else w
    case AskSnapshot(n) =>
      if n in w.nodes then
        w.(nodes := w.nodes[n := w.nodes[n].(asked := w.nodes[n].asked + {w.nodes[n].pos})])
      else w
    case WriteSnapshot(n, mark) =>
      if n in w.nodes && mark in w.nodes[n].asked then
        w.(snapshots := w.snapshots + [Snapshot(w.nodes[n].file, mark, w.nodes[n].seen)])
      else w
    case Install(n, k) =>
      if n in w.nodes && k < |w.snapshots| then
        var s := w.snapshots[k];
        w.(nodes := w.nodes[n := Node(s.file, s.mark, s.seen, {})])
      else w
  }

  function Run<S, C>(step: (S, C) -> Outcome<S>, s0: S, events: seq<Event<C>>): Cluster<S, C> {
    if events == [] then Start() else
      Next(step, s0, Run(step, s0, events[..|events| - 1]), events[|events| - 1])
  }

  /** A copy of the file made after handing it `seen` entries. */
  ghost predicate CopyOk<S, C>(step: (S, C) -> Outcome<S>, s0: S, log: seq<C>, f: FileState<S>, mark: nat, seen: nat) {
    mark <= seen <= |log| && f == Exact(step, s0, log, seen)
  }

  ghost predicate NodeOk<S, C>(step: (S, C) -> Outcome<S>, s0: S, log: seq<C>, d: Node<S>) {
    CopyOk(step, s0, log, d.file, d.pos, d.seen) && forall l <- d.asked :: l <= d.seen
  }

  ghost predicate SnapshotOk<S, C>(step: (S, C) -> Outcome<S>, s0: S, log: seq<C>, p: Snapshot<S>) {
    CopyOk(step, s0, log, p.file, p.mark, p.seen)
  }

  /** Every file, live or in a snapshot, is the exact file for the entries it has seen, and
      Raft never starts handing over entries past the one that should come next. */
  ghost predicate Consistent<S, C>(step: (S, C) -> Outcome<S>, s0: S, w: Cluster<S, C>) {
    && (forall n <- w.nodes :: NodeOk(step, s0, w.log, w.nodes[n]))
    && (forall k | 0 <= k < |w.snapshots| :: SnapshotOk(step, s0, w.log, w.snapshots[k]))
  }

  lemma CopySurvivesAppend<S(!new), C(!new)>(step: (S, C) -> Outcome<S>, s0: S, log: seq<C>, c: C,
                                            f: FileState<S>, mark: nat, seen: nat)
    requires CopyOk(step, s0, log, f, mark, seen)
    ensures CopyOk(step, s0, log + [c], f, mark, seen)
  {
    assert (log + [c])[..seen] == log[..seen];
  }

  lemma NodeDelivers<S(!new), C(!new)>(step: (S, C) -> Outcome<S>, s0: S, log: seq<C>, d: Node<S>)
    requires NodeOk(step, s0, log, d) && d.pos < |log|
    ensures CopyOk(step, s0, log, Deliver(step, d.file, d.pos + 1, log[d.pos]), d.pos + 1,
                   if d.seen <= d.pos then d.pos + 1 else d.seen)
  {
    DeliverKeepsExact(step, s0, log, d.seen, d.pos + 1);
  }

  lemma NextKeepsConsistent<S(!new), C(!new)>(step: (S, C) -> Outcome<S>, s0: S, w: Cluster<S, C>, e: Event<C>)
    requires Consistent(step, s0, w)
    ensures Consistent(step, s0, Next(step, s0, w, e))
  {
    if e.Append? {
      forall n <- w.nodes ensures NodeOk(step, s0, w.log + [e.c], w.nodes[n]) {
        CopySurvivesAppend(step, s0, w.log, e.c, w.nodes[n].file, w.nodes[n].pos, w.nodes[n].seen);
      }
      forall k | 0 <= k < |w.snapshots| ensures SnapshotOk(step, s0, w.log + [e.c], w.snapshots[k]) {
        CopySurvivesAppend(step, s0, w.log, e.c, w.snapshots[k].file, w.snapshots[k].mark, w.snapshots[k].seen);
      }
    } else if e.Join? {
      assert CopyOk(step, s0, w.log, FileState(s0, 0), 0, 0);
    } else if (e.ApplyNext? || e.ApplyThenCrash?) && e.n in w.nodes && w.nodes[e.n].pos < |w.log| {
      NodeDelivers(step, s0, w.log, w.nodes[e.n]);
    } else if e.Install? && e.n in w.nodes && e.k < |w.snapshots| {
      assert SnapshotOk(step, s0, w.log, w.snapshots[e.k]);
    }
  }

  /** Main result. In every run, with any crashes, replays and snapshots ahead of their
      label, each replica's file is the plain left fold of what it has seen of the log. */
  lemma {:induction false} EveryFileIsTheFold<S(!new), C(!new)>(step: (S, C) -> Outcome<S>, s0: S, events: seq<Event<C>>)
    ensures Consistent(step, s0, Run(step, s0, events))
  {
    if events != [] {
      EveryFileIsTheFold(step, s0, events[..|events| - 1]);
      NextKeepsConsistent(step, s0, Run(step, s0, events[..|events| - 1]), events[|events| - 1]);
    }
  }

  /** Replicas agree: files recording the same index are identical, in every run. */
  lemma ReplicasAgree<S(!new), C(!new)>(step: (S, C) -> Outcome<S>, s0: S, events: seq<Event<C>>, a: NodeId, b: NodeId)
    requires a in Run(step, s0, events).nodes && b in Run(step, s0, events).nodes
    requires Run(step, s0, events).nodes[a].file.index == Run(step, s0, events).nodes[b].file.index
    ensures Run(step, s0, events).nodes[a].file == Run(step, s0, events).nodes[b].file
  {
    var w := Run(step, s0, events);
    EveryFileIsTheFold(step, s0, events);
    IndexDeterminesFile(step, s0, w.log, w.nodes[a].seen, w.nodes[b].seen);
  }

  /** A replica to which Raft has handed the whole log holds the fold of the whole log. */
  lemma CaughtUpIsCurrent<S(!new), C(!new)>(step: (S, C) -> Outcome<S>, s0: S, events: seq<Event<C>>, a: NodeId)
    requires a in Run(step, s0, events).nodes
    requires Run(step, s0, events).nodes[a].pos == |Run(step, s0, events).log|
    ensures Run(step, s0, events).nodes[a].file.data == Fold(step, s0, Run(step, s0, events).log)
  {
    var w := Run(step, s0, events);
    EveryFileIsTheFold(step, s0, events);
    assert w.log[..|w.log|] == w.log;
  }

  // ---- And replicas do catch up ----

  /** n times the next entry for node a. */
  function Feed<C>(a: NodeId, n: nat): seq<Event<C>> {
    seq(n, i => ApplyNext(a))
  }

  lemma RunThen<S(!new), C(!new)>(step: (S, C) -> Outcome<S>, s0: S, events: seq<Event<C>>, e: Event<C>)
    ensures Run(step, s0, events + [e]) == Next(step, s0, Run(step, s0, events), e)
  {
    assert (events + [e])[..|events|] == events;
  }

  /** Main result. Whatever happened before, a node that is handed as many entries as it lacks holds the
      fold of the whole log. */
  lemma {:induction false} FeedingCatchesUp<S(!new), C(!new)>(step: (S, C) -> Outcome<S>, s0: S, events: seq<Event<C>>,
                                                               a: NodeId)
    requires a in Run(step, s0, events).nodes
    ensures var w := Run(step, s0, events);
            var lacks := |w.log| - w.nodes[a].pos;
            lacks >= 0 &&
            var w' := Run(step, s0, events + Feed(a, lacks));
            w'.log == w.log && a in w'.nodes && w'.nodes[a].file.data == Fold(step, s0, w.log)
    decreases |Run(step, s0, events).log| - Run(step, s0, events).nodes[a].pos
  {
    hide Run, Next, Fold;
    NotPastTheLog(step, s0, events, a);
    var lacks := |Run(step, s0, events).log| - Run(step, s0, events).nodes[a].pos;
    if lacks == 0 {
      assert events + Feed(a, lacks) == events;
      CaughtUpIsCurrent(step, s0, events, a);
    } else {
      OneFed(step, s0, events, a);
      FeedingCatchesUp(step, s0, events + [ApplyNext(a)], a);
      assert events + Feed(a, lacks) == events + [ApplyNext(a)] + Feed(a, lacks - 1);
    }
  }

  lemma NotPastTheLog<S(!new), C(!new)>(step: (S, C) -> Outcome<S>, s0: S, events: seq<Event<C>>, a: NodeId)
    requires a in Run(step, s0, events).nodes
    ensures Run(step, s0, events).nodes[a].pos <= |Run(step, s0, events).log|
  {
    EveryFileIsTheFold(step, s0, events);
    hide Run;
    assert NodeOk(step, s0, Run(step, s0, events).log, Run(step, s0, events).nodes[a]);
  }

  lemma OneFed<S(!new), C(!new)>(step: (S, C) -> Outcome<S>, s0: S, events: seq<Event<C>>, a: NodeId)
    requires a in Run(step, s0, events).nodes && Run(step, s0, events).nodes[a].pos < |Run(step, s0, events).log|
    ensures var w, w' := Run(step, s0, events), Run(step, s0, events + [ApplyNext(a)]);
            w'.log == w.log && a in w'.nodes && w'.nodes[a].pos == w.nodes[a].pos + 1
  {
    hide Run, Deliver;
    RunThen(step, s0, events, ApplyNext(a));
  }

  /** Every command that is appended gets its place in the log, and nothing else does. */
  function Appended<C>(events: seq<Event<C>>): seq<C> {
    if events == [] then [] else
      Appended(events[..|events| - 1]) + (if events[|events| - 1].Append? then [events[|events| - 1].c] else [])
  }

  lemma {:induction false} LogIs<S(!new), C(!new)>(step: (S, C) -> Outcome<S>, s0: S, events: seq<Event<C>>)
    ensures Run(step, s0, events).log == Appended(events)
  {
    if events != [] { LogIs(step, s0, events[..|events| - 1]); }
  }

  /** A node that joins is there, with an empty file if it is new; one that is sent a snapshot holds its
      file; the copy a node makes of its file, for a label it was asked for, is that file. */
  lemma NodesDoAsTold<S(!new), C(!new)>(step: (S, C) -> Outcome<S>, s0: S, events: seq<Event<C>>, a: NodeId, k: nat, mark: nat)
    ensures var w, w' := Run(step, s0, events), Run(step, s0, events + [Join(a)]);
            a in w'.nodes && w'.nodes[a].file == if a in w.nodes then w.nodes[a].file else FileState(s0, 0)
    ensures var w, w' := Run(step, s0, events), Run(step, s0, events + [Install(a, k)]);
            a in w.nodes && k < |w.snapshots| ==>
              a in w'.nodes && w'.nodes[a].file == w.snapshots[k].file && w'.nodes[a].pos == w.snapshots[k].mark
    ensures var w, w' := Run(step, s0, events), Run(step, s0, events + [AskSnapshot(a)]);
            a in w.nodes ==> a in w'.nodes && w.nodes[a].pos in w'.nodes[a].asked
    ensures var w, w' := Run(step, s0, events), Run(step, s0, events + [WriteSnapshot(a, mark)]);
            a in w.nodes && mark in w.nodes[a].asked ==>
              |w'.snapshots| == |w.snapshots| + 1 && w'.snapshots[|w.snapshots|].file == w.nodes[a].file &&
              w'.snapshots[|w.snapshots|].mark == mark
  {
    hide Run, Deliver;
    RunThen(step, s0, events, Join(a));
    RunThen(step, s0, events, AskSnapshot(a));
    RunThen(step, s0, events, Install(a, k));
    RunThen(step, s0, events, WriteSnapshot(a, mark));
  }

  /** A node that crashes keeps its file, after the entry it was being handed if there was one, is handed
      entries again from where it is told, and forgets what snapshots it was asked for. */
  lemma CrashesLoseOnlyThePlace<S(!new), C(!new)>(step: (S, C) -> Outcome<S>, s0: S, events: seq<Event<C>>, a: NodeId, to: nat)
    requires a in Run(step, s0, events).nodes && to <= Run(step, s0, events).nodes[a].seen
    ensures var w, w' := Run(step, s0, events), Run(step, s0, events + [Crash(a, to)]);
            a in w'.nodes && w'.nodes[a] == w.nodes[a].(pos := to, asked := {})
    ensures var w := Run(step, s0, events);
            var fed, w' := Run(step, s0, events + [ApplyNext(a)]), Run(step, s0, events + [ApplyThenCrash(a, to)]);
            w.nodes[a].pos < |w.log| ==>
              a in fed.nodes && a in w'.nodes && w'.nodes[a] == fed.nodes[a].(pos := to, asked := {})
  {
    hide Run, Deliver;
    RunThen(step, s0, events, Crash(a, to));
    RunThen(step, s0, events, ApplyNext(a));
    RunThen(step, s0, events, ApplyThenCrash(a, to));
  }

  // ---- The applier itself ----

  type LogId = nat

  const SITE_LOG: LogId := 0

  /** A logged command: the log it belongs to (LogOf), the file its Apply asks to write, and
      what it does there. */
  datatype Entry<C> = Entry(home: LogId, target: LogId, body: C)

  datatype RunError = NoError | WrongLog | WrongFile

  /** The files one node holds, as Applier sees them. */
  class Store<S(!new)> {
    const empty: S
    var files: map<LogId, FileState<S>>

    constructor (empty: S)
      ensures this.empty == empty && files == map[SITE_LOG := FileState(empty, 0)]
    {
      this.empty := empty;
      files := map[SITE_LOG := FileState(empty, 0)];
    }

    /** A file's current state; a group's file that does not exist yet counts as empty. */
    function At(l: LogId): FileState<S>
      reads this
    {
      if l in files then files[l] else FileState(empty, 0)
    }

    /** Applier.inTx: the transaction on one existing file. */
    method InTx<C(!new)>(step: (S, C) -> Outcome<S>, l: LogId, index: nat, c: C)
      requires l in files
      modifies this`files
      ensures files == old(files)[l := Deliver(step, old(files[l]), index, c)]
    {
      var f := files[l];
      if index <= f.index {
        assert files == files[l := f];
        return; // an entry the file has seen
      }
      var data := f.data;
      match step(data, c) {
        case Rollback =>
          assert files == files[l := f];
          return;
        case Commit(s) =>
          data := s;
      }
      files := files[l := FileState(data, index)];
    }

    /** Run, with the guards of Applier.Site and Applier.Group: a command may change only the
        file of the log it came from; anything else is an error that changes nothing. */
    method Run<C(!new)>(step: (S, C) -> Outcome<S>, log: LogId, index: nat, e: Entry<C>) returns (err: RunError)
      requires SITE_LOG in files
      modifies this`files
      ensures err == if e.home != log then WrongLog else if e.target != log then WrongFile else NoError
      ensures forall l :: l != log ==> At(l) == old(At(l))
      ensures At(log) == if err == NoError then Deliver(step, old(At(log)), index, e.body) else old(At(log))
      ensures old(files.Keys) <= files.Keys
    {
      if e.home != log {
        return WrongLog;
      }
      if e.target != log {
        return WrongFile;
      }
      if e.target !in files {
        files := files[e.target := FileState(empty, 0)]; // GroupOrCreate
      }
      InTx(step, e.target, index, e.body);
      return NoError;
    }

    /** Raft replaying a log's tail after a restart: from any entry the file has seen, it
        brings the file to the fold of the whole log. */
    method Replay<C(!new)>(step: (S, C) -> Outcome<S>, l: LogId, log: seq<C>, from: nat, ghost seen: nat)
      requires l in files && from <= seen <= |log|
      requires files[l] == Exact(step, empty, log, seen)
      modifies this`files
      ensures files == old(files)[l := Exact(step, empty, log, |log|)]
    {
      ghost var high := seen;
      for i := from to |log|
        invariant i <= high <= |log|
        invariant l in files && files[l] == Exact(step, empty, log, high)
        invariant files == old(files)[l := files[l]]
      {
        DeliverKeepsExact(step, empty, log, high, i + 1);
        InTx(step, l, i + 1, log[i]);
        high := if i + 1 <= high then high else i + 1;
      }
    }
  }
}
