/**
 The unreplicated engine: run a command, then relay outboxes until everything it set off is
 done (internal/cmd/direct.go). The commands are those that send follow-ups, with where they
 send them, and the follow-ups themselves.
 */
module Direct {
  import opened Outbox

  const SITE: LogId := 0

  const DRAIN_BATCH: nat := 1000

  /** Commands that touch an outbox. Where a command reads whom to tell from its own file (the
      groups on the site, a post's sister links), the answer is carried here. */
  datatype Cmd =
    // submitted by people and nodes
    | CreateGroup(group: LogId)
    | UpdateSettings(group: LogId, mirrors: bool)
    | ProposeSister(group: LogId, other: LogId)
    | AnswerSister(group: LogId, other: LogId)
    | EndSister(group: LogId, other: LogId)
    | RemoveSisterLink(group: LogId, other: LogId, echo: bool)
    | SetCheck(group: LogId, kept: seq<LogId>)
    | ChangePostShown(group: LogId, sisters: seq<LogId>) // SoftDelete, Restore and changeStatus on a post
    | Purge(groups: seq<LogId>)
    | QueueFAQ(groups: seq<LogId>)
    | Other(group: LogId)
    // follow-ups
    | InitGroup(group: LogId)
    | MirrorGroup(group: LogId)
    | ModLogEntry(group: LogId)
    | DropSisterLinks(group: LogId)
    | PutSisterSide(group: LogId)
    | ShowSisterNotes(group: LogId)
    | PurgeGroup(group: LogId)
    | QueueGroupFAQ(group: LogId)
    // the relay's own
    | OutboxDone(group: LogId, upTo: nat)

  /** LogOf: a command with a group goes to that group's log, unless it is a site command. */
  function LogOf(c: Cmd): LogId {
    match c
    case CreateGroup(_) | ProposeSister(_, _) | AnswerSister(_, _) | EndSister(_, _) | MirrorGroup(_) => SITE
    case Purge(_) | QueueFAQ(_) => SITE
    case _ => c.group
  }

  /** The site's own commands, and the mirrored settings, go to its log; everything else to its group's. */
  lemma LogOfIs(c: Cmd)
    ensures LogOf(c) ==
            if c.CreateGroup? || c.ProposeSister? || c.AnswerSister? || c.EndSister? || c.MirrorGroup? || c.Purge? || c.QueueFAQ?
            then SITE else c.group
  {
  }

  /** What a command puts in its file's outbox when it succeeds. */
  function Sends(c: Cmd): seq<Cmd> {
    match c
    case CreateGroup(g) => [InitGroup(g)]
    case UpdateSettings(g, mirrors) => if mirrors then [MirrorGroup(g)] else []
    case ProposeSister(g, _) => [ModLogEntry(g)]
    case AnswerSister(g, _) => [ModLogEntry(g)]
    case EndSister(g, other) => [DropSisterLinks(g), DropSisterLinks(other)]
    case RemoveSisterLink(g, other, echo) => if echo then [] else [RemoveSisterLink(other, g, true)]
    case SetCheck(g, kept) => seq(|kept|, k requires 0 <= k < |kept| => PutSisterSide(kept[k]))
    case ChangePostShown(g, sisters) => seq(|sisters|, k requires 0 <= k < |sisters| => ShowSisterNotes(sisters[k]))
    case Purge(groups) => seq(|groups|, k requires 0 <= k < |groups| => PurgeGroup(groups[k]))
    case QueueFAQ(groups) => seq(|groups|, k requires 0 <= k < |groups| => QueueGroupFAQ(groups[k]))
    case _ => []
  }

  /** A command that neither sends anything nor clears anything. */
  predicate Quiet(c: Cmd) {
    Sends(c) == [] && !c.OutboxDone?
  }

  /** What makes the drain stop: a command that was put in an outbox sends nothing itself. */
  lemma FollowUpsSendNothing(c: Cmd, f: Cmd)
    requires f in Sends(c)
    ensures Quiet(f)
  {
  }

  /** Main result, from the other end: who is told what. A new group is told to start; the site, of
      mirrored settings, and nobody of others; a group, of what its moderators should see when the site
      changes its sisters; both sides, of an end; the other side once, and never back, of a link
      removed; and whoever is listed, of the rest. */
  lemma SendsIff(c: Cmd, f: Cmd)
    ensures f in Sends(c) <==>
            match f
            case InitGroup(g) => c == CreateGroup(g)
            case MirrorGroup(g) => c == UpdateSettings(g, true)
            case ModLogEntry(g) => (c.ProposeSister? || c.AnswerSister?) && c.group == g
            case DropSisterLinks(g) => c.EndSister? && (c.group == g || c.other == g)
            case RemoveSisterLink(g, other, echo) => echo && c == RemoveSisterLink(other, g, false)
            case PutSisterSide(g) => c.SetCheck? && g in c.kept
            case ShowSisterNotes(g) => c.ChangePostShown? && g in c.sisters
            case PurgeGroup(g) => c.Purge? && g in c.groups
            case QueueGroupFAQ(g) => c.QueueFAQ? && g in c.groups
            case _ => false
    ensures f in Sends(c) ==> LogOf(f) == if f.MirrorGroup? then SITE else f.group
  {
    match c
    case SetCheck(_, kept) => assert forall k | 0 <= k < |kept| :: Sends(c)[k] == PutSisterSide(kept[k]);
    case ChangePostShown(_, sisters) =>
      assert forall k | 0 <= k < |sisters| :: Sends(c)[k] == ShowSisterNotes(sisters[k]);
    case Purge(groups) => assert forall k | 0 <= k < |groups| :: Sends(c)[k] == PurgeGroup(groups[k]);
    case QueueFAQ(groups) => assert forall k | 0 <= k < |groups| :: Sends(c)[k] == QueueGroupFAQ(groups[k]);
    case _ =>
  }

  function Targeted(cs: seq<Cmd>): (ms: seq<(LogId, Cmd)>)
    ensures |ms| == |cs| && forall k | 0 <= k < |cs| :: ms[k] == (LogOf(cs[k]), cs[k])
  {
    seq(|cs|, k requires 0 <= k < |cs| => (LogOf(cs[k]), cs[k]))
  }

  /** A file's outbox and its AUTOINCREMENT counter. */
  datatype File = File(rows: seq<Row<Cmd>>, last: nat)

  function Targets(rows: seq<Row<Cmd>>): (ls: seq<LogId>)
    ensures |ls| == |rows| && forall k | 0 <= k < |rows| :: ls[k] == rows[k].target
  {
    seq(|rows|, k requires 0 <= k < |rows| => rows[k].target)
  }

  /** What running a command does to the outbox of its own file. The answer is given from
      outside; only a command that is applied sends or clears anything. */
  function RunOn(f: File, c: Cmd, answer: Answer): File {
    if answer != Applied then f
    else if c.OutboxDone? then f.(rows := Clear(f.rows, c.upTo))
    else File(f.rows + Numbered(Targeted(Sends(c)), f.last), f.last + |Sends(c)|)
  }

  ghost predicate Increasing(rows: seq<Row<Cmd>>) {
    forall j, k | 0 <= j < k < |rows| :: rows[j].id < rows[k].id
  }

  ghost predicate GoodRow(row: Row<Cmd>, last: nat) {
    row.id <= last && Quiet(row.msg) && row.target == LogOf(row.msg)
  }

  /** A well-formed outbox: ids grow, and every row is quiet and knows its log. */
  ghost predicate Good(f: File) {
    Increasing(f.rows) && forall row <- f.rows :: GoodRow(row, f.last)
  }

  lemma ClearKeeps(rows: seq<Row<Cmd>>, upTo: nat)
    requires Increasing(rows)
    ensures Increasing(Clear(rows, upTo))
    ensures forall row <- Clear(rows, upTo) :: row in rows
    decreases |rows|
  {
    if rows != [] {
      ClearKeeps(rows[1..], upTo);
    }
  }

  lemma RunKeepsGood(f: File, c: Cmd, answer: Answer)
    requires Good(f)
    ensures Good(RunOn(f, c, answer))
  {
    if answer == Applied && !c.OutboxDone? {
      var rows := Numbered(Targeted(Sends(c)), f.last);
      forall k | 0 <= k < |rows| ensures GoodRow(rows[k], f.last + |rows|) {
        FollowUpsSendNothing(c, Sends(c)[k]);
      }
      forall k | 0 <= k < |f.rows| ensures f.rows[k].id <= f.last { assert f.rows[k] in f.rows; }
    } else if answer == Applied {
      ClearKeeps(f.rows, c.upTo);
    }
  }

  /** A command waits, for its log, in the outbox of this one. */
  ghost predicate Awaited(start: set<(LogId, Row<Cmd>)>, log: LogId, f: Cmd) {
    exists row: Row<Cmd> :: (log, row) in start && row.msg == f && row.target == LogOf(f)
  }

  /** A command was run, and was applied, or refused as input and so dropped. */
  ghost predicate Served(ran: seq<(Cmd, Answer)>, c: Cmd) {
    (c, Applied) in ran || (c, Refused) in ran
  }

  /** What was run is the rows of a batch, from the first on. */
  ghost predicate InOrder(items: seq<Row<Cmd>>, ran: seq<(Cmd, Answer)>) {
    |ran| <= |items| && forall k | 0 <= k < |ran| :: ran[k].0 == items[k].msg
  }

  class Engine {
    var files: map<LogId, File>
    /** Every command run, in order, with its answer. */
    var ran: seq<(Cmd, Answer)>

    ghost predicate Valid()
      reads this
    {
      SITE in files && forall l <- files :: Good(files[l])
    }

    constructor ()
      ensures Valid() && files == map[SITE := File([], 0)] && ran == []
    {
      files, ran := map[SITE := File([], 0)], [];
    }

    /** A log's file; one that does not exist yet counts as empty. */
    function At(l: LogId): File
      reads this
    {
      if l in files then files[l] else File([], 0)
    }

    /** All waiting rows of all files. */
    ghost function Waiting(): set<(LogId, Row<Cmd>)>
      reads this
    {
      set l, row | l in files && row in files[l].rows :: (l, row)
    }

    method Run(c: Cmd, answer: Answer)
      requires Valid()
      modifies this
      ensures Valid()
      ensures ran == old(ran) + [(c, answer)]
      ensures files == old(files)[LogOf(c) := RunOn(old(At(LogOf(c))), c, answer)]
    {
      var l := LogOf(c);
      var f := if l in files then files[l] else File([], 0);
      RunKeepsGood(f, c, answer);
      hide Good, Sends, Clear, Numbered, Targeted;
      ran := ran + [(c, answer)];
      ghost var next := RunOn(f, c, answer);
      if answer == Applied {
        if c.OutboxDone? {
          f := f.(rows := Clear(f.rows, c.upTo));
        } else {
          f := File(f.rows + Numbered(Targeted(Sends(c)), f.last), f.last + |Sends(c)|);
        }
      }
      assert f == next;
      hide RunOn, LogOf;
      files := files[l := f];
    }

    /** Run a quiet command: at most a new, empty file appears. */
    method RunQuiet(c: Cmd, answer: Answer)
      requires Valid() && Quiet(c)
      modifies this
      ensures Valid()
      ensures ran == old(ran) + [(c, answer)]
      ensures files.Keys == old(files).Keys + {LogOf(c)}
      ensures forall l :: At(l) == old(At(l))
    {
      Run(c, answer);
      assert Numbered(Targeted(Sends(c)), old(At(LogOf(c))).last) == [];
    }

    /** Run a batch's rows in order; false if an answer stops it. */
    method RunAll(items: seq<Row<Cmd>>, fate: (nat, Cmd) -> Answer) returns (ok: bool)
      requires Valid() && forall row <- items :: GoodRow(row, row.id)
      modifies this
      ensures Valid() && old(files).Keys <= files.Keys
      ensures forall l :: At(l) == old(At(l))
      ensures old(ran) <= ran && InOrder(items, ran[|old(ran)|..])
      ensures ok ==> forall row <- items :: Served(ran, row.msg) && row.target in files
      ensures AllGoesWell(fate) ==> ok
    {
      for i := 0 to |items|
        invariant Valid() && old(files).Keys <= files.Keys
        invariant forall l :: At(l) == old(At(l))
        invariant old(ran) <= ran && |ran| == |old(ran)| + i && InOrder(items, ran[|old(ran)|..])
        invariant forall k | 0 <= k < i :: Served(ran, items[k].msg) && items[k].target in files
      {
        assert GoodRow(items[i], items[i].id);
        var answer := fate(|ran|, items[i].msg);
        ghost var ranSoFar := ran;
        RunQuiet(items[i].msg, answer);
        assert ran == ranSoFar + [(items[i].msg, answer)];
        if answer == Failed {
          return false;
        }
      }
      return true;
    }

    /** One batch: run its rows, then clear them. */
    method RelayBatch(log: LogId, items: seq<Row<Cmd>>, fate: (nat, Cmd) -> Answer) returns (ok: bool)
      requires Valid() && log in files && items != [] && items <= files[log].rows
      modifies this
      ensures Valid() && old(files).Keys <= files.Keys
      ensures forall l | l != log :: At(l) == old(At(l))
      ensures At(log).rows == if ok then old(At(log)).rows[|items|..] else old(At(log)).rows
      ensures old(ran) <= ran
      ensures ok ==> forall row <- items :: Served(ran, row.msg) && row.target in files
      ensures AllGoesWell(fate) ==> ok
    {
      ghost var f := files[log];
      assert Good(f);
      forall row <- items ensures GoodRow(row, row.id) { assert row in f.rows; }
      ok := RunAll(items, fate);
      if !ok {
        return;
      }
      assert At(log) == f;
      var answer := fate(|ran|, OutboxDone(log, items[|items| - 1].id));
      ClearBatch(log, items, answer);
      return answer == Applied;
    }

    /** Submit a batch's OutboxDone. */
    method ClearBatch(log: LogId, items: seq<Row<Cmd>>, answer: Answer)
      requires Valid() && log in files && items != [] && items <= files[log].rows
      modifies this
      ensures Valid()
      ensures files == old(files)[log := if answer == Applied then old(files[log]).(rows := old(files[log]).rows[|items|..])
                                         else old(files[log])]
      ensures old(ran) <= ran
    {
      ghost var f := files[log];
      assert Good(f) && f.rows[|items| - 1] == items[|items| - 1];
      ClearOldest(f.rows, |items|);
      Run(OutboxDone(log, items[|items| - 1].id), answer);
    }

    /** A batch, in terms of what waits anywhere: only its own rows leave, and each was run. */
    method RelayOldest(log: LogId, fate: (nat, Cmd) -> Answer) returns (ok: bool, items: seq<Row<Cmd>>)
      requires Valid() && log in files && files[log].rows != []
      modifies this
      ensures Valid() && old(files).Keys <= files.Keys && old(ran) <= ran
      ensures Waiting() <= old(Waiting()) && (ok ==> Waiting() < old(Waiting()))
      ensures forall w <- old(Waiting()) :: w !in Waiting() ==> ok && w.0 == log && w.1 in items && Served(ran, w.1.msg)
      ensures forall l | l != log || !ok :: At(l).rows == old(At(l)).rows
      ensures AllGoesWell(fate) ==> ok
    {
      ghost var before, rows := Waiting(), files[log].rows;
      items := Oldest(files[log].rows, DRAIN_BATCH);
      assert rows == items + rows[|items|..];
      ok := RelayBatch(log, items, fate);
      forall w | w in Waiting() ensures w in before {
        assert w.1 in At(w.0).rows;
      }
      forall w | w in before ensures w in Waiting() || (ok && w.0 == log && w.1 in items) {
        assert w.0 in files;
        if w.0 == log {
          assert w.1 in rows;
        } else {
          assert w.1 in At(w.0).rows;
        }
      }
      if ok {
        assert Good(old(files)[log]);
        assert (log, items[0]) in before && (log, items[0]) !in Waiting();
      }
    }

    /** drain: relay a log's outbox, and the outboxes of every log that reaches, until they are
        all empty. It always ends: each batch removes rows and adds none. */
    method Drain(from: LogId, fate: (nat, Cmd) -> Answer) returns (ok: bool)
      requires Valid()
      modifies this
      ensures Valid() && old(files).Keys <= files.Keys && old(ran) <= ran
      ensures ok ==> Settled(from, old(Waiting()))
      ensures NothingDropped(old(Waiting()))
      ensures AllGoesWell(fate) ==> ok
    {
      ghost var start := Waiting();
      var pending := [from];
      while pending != []
        invariant Valid() && old(files).Keys <= files.Keys && old(ran) <= ran
        invariant Waiting() <= start
        invariant At(from).rows == [] || from in pending
        invariant forall w <- start :: w in Waiting() || At(w.1.target).rows == [] || w.1.target in pending
        invariant NothingDropped(start)
        decreases Waiting(), |pending|
      {
        var log := pending[0];
        ghost var was := pending;
        pending := pending[1..];
        assert forall l <- was :: l == log || l in pending;
        if log in files && files[log].rows != [] {
          var done, items := RelayOldest(log, fate);
          if !done {
            return false;
          }
          pending := pending + Targets(items) + [log];
        }
      }
      return true;
    }

    /** Apply: one command, and everything it sends on. When nothing fails, its own log's outbox
        and the outbox of every log it reached are empty afterwards. */
    method Apply(c: Cmd, fate: (nat, Cmd) -> Answer) returns (answer: Answer)
      requires Valid()
      modifies this
      ensures Valid()
      ensures answer == Applied ==> At(LogOf(c)).rows == [] && forall f <- Sends(c) :: Served(ran, f) && At(LogOf(f)).rows == []
      ensures fate(|old(ran)|, c) == Applied && AllGoesWell(fate) ==> answer == Applied
    {
      answer := fate(|ran|, c);
      Run(c, answer);
      if answer != Applied {
        return;
      }
      ghost var start := Waiting();
      if !c.OutboxDone? { SentIsAwaited(c, old(At(LogOf(c)))); }
      hide Sends;
      var ok := Drain(LogOf(c), fate);
      if !ok {
        return Failed;
      }
      forall f <- Sends(c) ensures Served(ran, f) && At(LogOf(f)).rows == [] {
        assert Awaited(start, LogOf(c), f);
        var row: Row<Cmd> :| (LogOf(c), row) in start && row.msg == f && row.target == LogOf(f);
        assert At(LogOf(c)).rows == [] && (LogOf(c), row) !in Waiting();
      }
    }

    /** A command that was just run has its follow-ups waiting. */
    lemma SentIsAwaited(c: Cmd, before: File)
      requires LogOf(c) in files && files[LogOf(c)].rows == before.rows + Numbered(Targeted(Sends(c)), before.last)
      ensures forall f <- Sends(c) :: Awaited(Waiting(), LogOf(c), f)
    {
      var rows := before.rows;
      forall f <- Sends(c) ensures Awaited(Waiting(), LogOf(c), f) {
        var k :| 0 <= k < |Sends(c)| && Sends(c)[k] == f;
        var row := files[LogOf(c)].rows[|rows| + k];
        assert row.msg == f && row.target == LogOf(f);
        assert (LogOf(c), row) in Waiting();
      }
    }

    /** A log's outbox, and the outbox of every log something was delivered to, are empty. */
    ghost predicate Settled(from: LogId, start: set<(LogId, Row<Cmd>)>)
      reads this
    {
      && At(from).rows == []
      && forall w <- start :: w !in Waiting() ==> At(w.1.target).rows == []
    }

    /** Every row that has left an outbox was run. */
    ghost predicate NothingDropped(start: set<(LogId, Row<Cmd>)>)
      reads this
    {
      forall w <- start :: w in Waiting() || Served(ran, w.1.msg)
    }
  }

  /** Nothing fails, and no OutboxDone is refused. */
  ghost predicate AllGoesWell(fate: (nat, Cmd) -> Answer) {
    forall n, c :: fate(n, c) != Failed && (c.OutboxDone? ==> fate(n, c) == Applied)
  }
}
