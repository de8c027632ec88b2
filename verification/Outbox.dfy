/**
 The outbox of one log: follow-up commands written in the sending command's own
 transaction, relayed at least once by whoever leads the log, cleared by OutboxDone
 (internal/cmd/logs.go, internal/cluster/upkeep.go, internal/store/store.go).

 The first half is a protocol over all runs: any number of relays at once (an old leader
 that does not know it was replaced, a new one), reading any earlier version of the outbox,
 with deliveries and OutboxDone commands that arrive late, repeatedly, or not at all. The
 second half is relay's own loop.
 */
module Outbox {

  type LogId = nat

  /** A waiting follow-up. Ids come from AUTOINCREMENT, so an id is never used twice. */
  datatype Row<M> = Row(id: nat, target: LogId, msg: M)

  /** How many rows a relay reads at a time. */
  const BATCH: nat := 100

  function Min(a: nat, b: nat): nat { if a <= b then a else b }

  /** Store.Outbox: the oldest waiting rows. */
  function Oldest<M>(rows: seq<Row<M>>, limit: nat): seq<Row<M>> {
    rows[..Min(limit, |rows|)]
  }

  /** OutboxDone: DELETE FROM outbox WHERE id <= upTo. */
  function Clear<M>(rows: seq<Row<M>>, upTo: nat): seq<Row<M>> {
    if rows == [] then [] else
      (if rows[0].id <= upTo then [] else [rows[0]]) + Clear(rows[1..], upTo)
  }

  /** Rows numbered from..from+n with consecutive ids, for the messages a transaction sends. */
  function Numbered<M>(msgs: seq<(LogId, M)>, after: nat): (rows: seq<Row<M>>)
    ensures |rows| == |msgs|
    ensures forall k | 0 <= k < |rows| :: rows[k] == Row(after + k + 1, msgs[k].0, msgs[k].1)
  {
    seq(|msgs|, k requires 0 <= k < |msgs| => Row(after + k + 1, msgs[k].0, msgs[k].1))
  }

  // ---- The protocol ----

  datatype Relay<M> = Relay(batch: seq<Row<M>>, next: nat)

  /** sent: every row the log ever committed, in order (a history). outbox: the table now.
      versions: every committed state of the table, because a node reads its own copy, which
      may lag. attempts: rows a relay has submitted to their target log. landed: what the
      target logs applied, or refused as the person's kind of error, in the order it
      happened. dones: OutboxDone commands submitted; each may commit at any later time. */
  datatype Net<M> = Net(
    sent: seq<Row<M>>,
    outbox: seq<Row<M>>,
    versions: seq<seq<Row<M>>>,
    relays: map<nat, Relay<M>>,
    attempts: set<nat>,
    landed: seq<Row<M>>,
    dones: set<nat>)

  datatype Event<M> =
    | Send(msgs: seq<(LogId, M)>)      // a command commits, with its follow-ups
    | Begin(r: nat, v: nat)            // relay r reads a batch from version v of the outbox
    | Attempt(r: nat)                  // it submits the next row of its batch
    | Land(id: nat)                    // a submitted row is applied (perhaps again)
    | Acknowledge(r: nat)              // the relay hears its row was applied, or refused as input
    | Stop(r: nat)                     // it stops: crash, lost leadership, any other failure
    | Finish(r: nat)                   // batch delivered: it submits OutboxDone
    | Done(upTo: nat)                  // a submitted OutboxDone commits

  function Start<M>(): Net<M> {
    Net([], [], [[]], map[], {}, [], {})
  }

  /** One event; an event that cannot happen changes nothing. */
  function Next<M(==)>(w: Net<M>, e: Event<M>): Net<M> {
    match e
    case Send(msgs) =>
      var rows := Numbered(msgs, |w.sent|);
      w.(sent := w.sent + rows, outbox := w.outbox + rows, versions := w.versions + [w.outbox + rows])
    case Begin(r, v) =>
      if v < |w.versions| && Oldest(w.versions[v], BATCH) != [] then
        w.(relays := w.relays[r := Relay(Oldest(w.versions[v], BATCH), 0)])
      else w
    case Attempt(r) =>
      if r in w.relays && w.relays[r].next < |w.relays[r].batch| then
        w.(attempts := w.attempts + {w.relays[r].batch[w.relays[r].next].id})
      else w
    case Land(id) =>
      if id in w.attempts && 1 <= id <= |w.sent| then w.(landed := w.landed + [w.sent[id - 1]]) else w
    case Acknowledge(r) =>
      if r in w.relays && w.relays[r].next < |w.relays[r].batch| && w.relays[r].batch[w.relays[r].next] in w.landed then
        w.(relays := w.relays[r := w.relays[r].(next := w.relays[r].next + 1)])
      else w
    case Stop(r) => w.(relays := w.relays - {r})
    case Finish(r) =>
      if r in w.relays && w.relays[r].next == |w.relays[r].batch| > 0 then
        w.(relays := w.relays - {r}, dones := w.dones + {w.relays[r].batch[|w.relays[r].batch| - 1].id})
      else w
    case Done(upTo) =>
      if upTo in w.dones then
        w.(outbox := Clear(w.outbox, upTo), versions := w.versions + [Clear(w.outbox, upTo)])
      else w
  }

  function Run<M(==)>(events: seq<Event<M>>): Net<M> {
    if events == [] then Start() else Next(Run(events[..|events| - 1]), events[|events| - 1])
  }

  /** The deliveries with repeats left out: each row where it first landed. */
  function FirstLandings<M(==)>(landed: seq<Row<M>>): (firsts: seq<Row<M>>)
    ensures forall row <- landed :: row in firsts
    ensures forall row <- firsts :: row in landed
  {
    if landed == [] then [] else
      var before := FirstLandings(landed[..|landed| - 1]);
      var last := landed[|landed| - 1];
      assert landed == landed[..|landed| - 1] + [last];
      if last in before then before else before + [last]
  }

  /** A table that holds a stretch of what was sent: everything after `gone`. */
  ghost predicate Stretch<M>(rows: seq<Row<M>>, sent: seq<Row<M>>, gone: nat) {
    gone + |rows| <= |sent| && rows == sent[gone..gone + |rows|]
  }

  ghost predicate IdsInOrder<M>(sent: seq<Row<M>>) {
    forall k | 0 <= k < |sent| :: sent[k].id == k + 1
  }

  function Delivered<M(==)>(w: Net<M>): nat { |FirstLandings(w.landed)| }

  /** rows is what was sent after the first `gone`, all of which were delivered. */
  ghost predicate TableOk<M>(rows: seq<Row<M>>, sent: seq<Row<M>>, delivered: nat) {
    exists gone: nat :: gone <= delivered && Stretch(rows, sent, gone)
  }

  ghost predicate RelayOk<M>(x: Relay<M>, sent: seq<Row<M>>, delivered: nat) {
    && 0 < |x.batch| && x.next <= |x.batch|
    && exists gone: nat :: gone + x.next <= delivered && Stretch(x.batch, sent, gone)
  }

  /** The outbox is the rest of what was sent, after rows that were all delivered. */
  ghost predicate OutboxOk<M>(outbox: seq<Row<M>>, sent: seq<Row<M>>, delivered: nat) {
    exists gone: nat :: gone <= delivered && Stretch(outbox, sent, gone) && gone + |outbox| == |sent|
  }

  ghost predicate VersionsOk<M>(versions: seq<seq<Row<M>>>, sent: seq<Row<M>>, delivered: nat) {
    forall v | 0 <= v < |versions| :: TableOk(versions[v], sent, delivered)
  }

  ghost predicate RelaysOk<M>(relays: map<nat, Relay<M>>, sent: seq<Row<M>>, delivered: nat) {
    forall r <- relays :: RelayOk(relays[r], sent, delivered)
  }

  ghost predicate SendsOk<M>(w: Net<M>) {
    IdsInOrder(w.sent) && Delivered(w) <= |w.sent| && FirstLandings(w.landed) == w.sent[..Delivered(w)]
  }

  ghost predicate SubmittedOk(attempts: set<nat>, dones: set<nat>, sent: nat, delivered: nat) {
    (forall id <- attempts :: 1 <= id <= delivered + 1 && id <= sent) && forall upTo <- dones :: upTo <= delivered
  }

  /** What every event keeps. */
  ghost predicate Safe<M>(w: Net<M>) {
    var d := Delivered(w);
    && SendsOk(w) && OutboxOk(w.outbox, w.sent, d) && VersionsOk(w.versions, w.sent, d) && RelaysOk(w.relays, w.sent, d)
    && SubmittedOk(w.attempts, w.dones, |w.sent|, d)
  }

  lemma ClearStretch<M>(rows: seq<Row<M>>, sent: seq<Row<M>>, gone: nat, upTo: nat)
    requires IdsInOrder(sent) && Stretch(rows, sent, gone)
    ensures var k := if upTo <= gone then 0 else Min(upTo - gone, |rows|);
            Clear(rows, upTo) == rows[k..]
    decreases |rows|
  {
    if rows != [] {
      assert rows[0] == sent[gone] && rows == [rows[0]] + rows[1..];
      TailStretch(rows, sent, gone);
      ClearStretch(rows[1..], sent, gone + 1, upTo);
      hide IdsInOrder, Stretch;
    }
  }

  lemma TailStretch<M>(rows: seq<Row<M>>, sent: seq<Row<M>>, gone: nat)
    requires Stretch(rows, sent, gone) && rows != []
    ensures Stretch(rows[1..], sent, gone + 1)
  {
  }

  /** Rows sent earlier stay where they are when more are sent, and a table that was good
      stays good as more gets delivered. */
  lemma TableStays<M>(rows: seq<Row<M>>, sent: seq<Row<M>>, more: seq<Row<M>>, d: nat, d': nat)
    requires TableOk(rows, sent, d) && d <= d'
    ensures TableOk(rows, sent + more, d')
  {
    var gone: nat :| gone <= d && Stretch(rows, sent, gone);
    assert Stretch(rows, sent + more, gone);
  }

  lemma RelayStays<M>(x: Relay<M>, sent: seq<Row<M>>, more: seq<Row<M>>, d: nat, d': nat)
    requires RelayOk(x, sent, d) && d <= d'
    ensures RelayOk(x, sent + more, d')
  {
    var gone: nat :| gone + x.next <= d && Stretch(x.batch, sent, gone);
    assert Stretch(x.batch, sent + more, gone);
  }

  lemma VersionsStay<M>(versions: seq<seq<Row<M>>>, sent: seq<Row<M>>, more: seq<Row<M>>, d: nat, d': nat)
    requires VersionsOk(versions, sent, d) && d <= d'
    ensures VersionsOk(versions, sent + more, d')
  {
    hide TableOk;
    forall v | 0 <= v < |versions| ensures TableOk(versions[v], sent + more, d') {
      TableStays(versions[v], sent, more, d, d');
    }
  }

  lemma VersionsGrow<M>(versions: seq<seq<Row<M>>>, rows: seq<Row<M>>, sent: seq<Row<M>>, d: nat)
    requires VersionsOk(versions, sent, d) && TableOk(rows, sent, d)
    ensures VersionsOk(versions + [rows], sent, d)
  {
    hide TableOk;
    forall v | 0 <= v < |versions + [rows]| ensures TableOk((versions + [rows])[v], sent, d) {
      if v < |versions| { assert (versions + [rows])[v] == versions[v]; }
    }
  }

  lemma RelaysStay<M>(relays: map<nat, Relay<M>>, sent: seq<Row<M>>, more: seq<Row<M>>, d: nat, d': nat)
    requires RelaysOk(relays, sent, d) && d <= d'
    ensures RelaysOk(relays, sent + more, d')
  {
    hide RelayOk;
    forall r <- relays ensures RelayOk(relays[r], sent + more, d') {
      RelayStays(relays[r], sent, more, d, d');
    }
  }

  lemma OutboxGrows<M>(outbox: seq<Row<M>>, sent: seq<Row<M>>, more: seq<Row<M>>, d: nat)
    requires OutboxOk(outbox, sent, d)
    ensures OutboxOk(outbox + more, sent + more, d) && TableOk(outbox + more, sent + more, d)
  {
    var gone: nat :| gone <= d && Stretch(outbox, sent, gone) && gone + |outbox| == |sent|;
    assert outbox + more == (sent + more)[gone..gone + |outbox + more|];
    assert Stretch(outbox + more, sent + more, gone);
  }

  lemma SendSafe<M>(w: Net<M>, msgs: seq<(LogId, M)>)
    requires Safe(w)
    ensures Safe(Next(w, Send(msgs)))
  {
    var d, rows := Delivered(w), Numbered(msgs, |w.sent|);
    SendsGrow(w, msgs);
    hide SendsOk, OutboxOk, VersionsOk, RelaysOk, TableOk, Delivered;
    OutboxGrows(w.outbox, w.sent, rows, d);
    VersionsStay(w.versions, w.sent, rows, d, d);
    VersionsGrow(w.versions, w.outbox + rows, w.sent + rows, d);
    RelaysStay(w.relays, w.sent, rows, d, d);
  }

  lemma SendsGrow<M>(w: Net<M>, msgs: seq<(LogId, M)>)
    requires SendsOk(w)
    ensures SendsOk(Next(w, Send(msgs))) && Delivered(Next(w, Send(msgs))) == Delivered(w)
  {
    var d, w' := Delivered(w), Next(w, Send(msgs));
    assert w'.sent[..d] == w.sent[..d];
  }

  /** What is sent and delivered is as before. */
  lemma SameSends<M>(w: Net<M>, w': Net<M>)
    requires w'.sent == w.sent && w'.landed == w.landed
    ensures Delivered(w') == Delivered(w) && (SendsOk(w') <==> SendsOk(w))
  {
  }

  lemma BeginSafe<M>(w: Net<M>, r: nat, v: nat)
    requires Safe(w)
    ensures Safe(Next(w, Begin(r, v)))
  {
    if v < |w.versions| && Oldest(w.versions[v], BATCH) != [] {
      var d, batch := Delivered(w), Oldest(w.versions[v], BATCH);
      SameSends(w, Next(w, Begin(r, v)));
      assert TableOk(w.versions[v], w.sent, d);
      BatchOk(w.versions[v], batch, w.sent, d);
      hide SendsOk, OutboxOk, VersionsOk, TableOk, RelayOk, Delivered;
      RelayPut(w.relays, r, Relay(batch, 0), w.sent, d);
    }
  }

  lemma BatchOk<M>(rows: seq<Row<M>>, batch: seq<Row<M>>, sent: seq<Row<M>>, d: nat)
    requires TableOk(rows, sent, d) && batch <= rows && batch != []
    ensures RelayOk(Relay(batch, 0), sent, d)
  {
    var gone: nat :| gone <= d && Stretch(rows, sent, gone);
    assert Stretch(batch, sent, gone);
  }

  lemma RelayPut<M>(relays: map<nat, Relay<M>>, r: nat, x: Relay<M>, sent: seq<Row<M>>, d: nat)
    requires RelaysOk(relays, sent, d) && RelayOk(x, sent, d)
    ensures RelaysOk(relays[r := x], sent, d)
  {
    hide RelayOk;
  }

  lemma LandSafe<M>(w: Net<M>, id: nat)
    requires Safe(w)
    ensures Safe(Next(w, Land(id)))
  {
    if id in w.attempts {
      var w', d := Next(w, Land(id)), Delivered(w);
      LandedOne(w, id);
      assert w.sent + [] == w.sent;
      hide SendsOk, OutboxOk, VersionsOk, RelaysOk, Delivered;
      OutboxStays(w.outbox, w.sent, d, Delivered(w'));
      VersionsStay(w.versions, w.sent, [], d, Delivered(w'));
      RelaysStay(w.relays, w.sent, [], d, Delivered(w'));
    }
  }

  lemma OutboxStays<M>(outbox: seq<Row<M>>, sent: seq<Row<M>>, d: nat, d': nat)
    requires OutboxOk(outbox, sent, d) && d <= d'
    ensures OutboxOk(outbox, sent, d')
  {
  }

  /** A row that lands is new at the end of the deliveries, or a repeat. */
  lemma LandedOne<M>(w: Net<M>, id: nat)
    requires SendsOk(w) && 1 <= id <= Delivered(w) + 1 && id <= |w.sent| && id in w.attempts
    ensures SendsOk(Next(w, Land(id))) && Delivered(w) <= Delivered(Next(w, Land(id)))
  {
    var w', d, row, firsts := Next(w, Land(id)), Delivered(w), w.sent[id - 1], FirstLandings(w.landed);
    assert w'.landed[..|w'.landed| - 1] == w.landed;
    if id <= d {
      assert firsts[id - 1] == row;
    } else {
      forall k | 0 <= k < d ensures firsts[k] != row { assert firsts[k] == w.sent[k]; }
      assert w.sent[..d] + [row] == w.sent[..d + 1];
    }
  }

  lemma AttemptSafe<M>(w: Net<M>, r: nat)
    requires Safe(w)
    ensures Safe(Next(w, Attempt(r)))
  {
    if r in w.relays && w.relays[r].next < |w.relays[r].batch| {
      SameSends(w, Next(w, Attempt(r)));
      assert RelayOk(w.relays[r], w.sent, Delivered(w));
      NextIs(w.relays[r], w.sent, Delivered(w));
      hide SendsOk, OutboxOk, VersionsOk, RelaysOk, Delivered;
    }
  }

  /** The row a relay is waiting for: at most one past the deliveries. */
  lemma NextIs<M>(x: Relay<M>, sent: seq<Row<M>>, d: nat)
    requires RelayOk(x, sent, d) && IdsInOrder(sent) && x.next < |x.batch|
    ensures var id := x.batch[x.next].id; 1 <= id <= d + 1 && id <= |sent| && x.batch[x.next] == sent[id - 1]
  {
    var gone: nat :| gone + x.next <= d && Stretch(x.batch, sent, gone);
    assert x.batch[x.next] == sent[gone + x.next];
  }

  lemma AcknowledgeSafe<M>(w: Net<M>, r: nat)
    requires Safe(w)
    ensures Safe(Next(w, Acknowledge(r)))
  {
    if r in w.relays && w.relays[r].next < |w.relays[r].batch| && w.relays[r].batch[w.relays[r].next] in w.landed {
      var x, d := w.relays[r], Delivered(w);
      SameSends(w, Next(w, Acknowledge(r)));
      assert RelayOk(x, w.sent, d);
      LandedIsDelivered(w, x.batch[x.next]);
      Acknowledged(x, w.sent, d);
      hide SendsOk, OutboxOk, VersionsOk, RelayOk, Delivered;
      RelayPut(w.relays, r, x.(next := x.next + 1), w.sent, d);
    }
  }

  lemma LandedIsDelivered<M>(w: Net<M>, row: Row<M>)
    requires SendsOk(w) && row in w.landed
    ensures 1 <= row.id <= Delivered(w)
  {
    assert row in FirstLandings(w.landed);
    var k :| 0 <= k < Delivered(w) && FirstLandings(w.landed)[k] == row;
    assert row == w.sent[k];
  }

  lemma Acknowledged<M>(x: Relay<M>, sent: seq<Row<M>>, d: nat)
    requires RelayOk(x, sent, d) && IdsInOrder(sent) && x.next < |x.batch| && x.batch[x.next].id <= d
    ensures RelayOk(x.(next := x.next + 1), sent, d)
  {
    var gone: nat :| gone + x.next <= d && Stretch(x.batch, sent, gone);
    assert x.batch[x.next] == sent[gone + x.next];
    assert gone + (x.next + 1) <= d;
  }

  /** A relay that ends, whatever else stays. */
  lemma RelayEnds<M>(relays: map<nat, Relay<M>>, r: nat, sent: seq<Row<M>>, d: nat)
    requires RelaysOk(relays, sent, d)
    ensures RelaysOk(relays - {r}, sent, d)
  {
    hide RelayOk;
  }

  lemma StopSafe<M>(w: Net<M>, r: nat)
    requires Safe(w)
    ensures Safe(Next(w, Stop(r)))
  {
    SameSends(w, Next(w, Stop(r)));
    hide SendsOk, OutboxOk, VersionsOk, RelaysOk, Delivered;
    RelayEnds(w.relays, r, w.sent, Delivered(w));
  }

  lemma FinishSafe<M>(w: Net<M>, r: nat)
    requires Safe(w)
    ensures Safe(Next(w, Finish(r)))
  {
    if r in w.relays && w.relays[r].next == |w.relays[r].batch| > 0 {
      SameSends(w, Next(w, Finish(r)));
      assert RelayOk(w.relays[r], w.sent, Delivered(w));
      LastIs(w.relays[r], w.sent, Delivered(w));
      hide SendsOk, OutboxOk, VersionsOk, RelaysOk, Delivered;
      RelayEnds(w.relays, r, w.sent, Delivered(w));
    }
  }

  /** The last row of a batch that went through was delivered. */
  lemma LastIs<M>(x: Relay<M>, sent: seq<Row<M>>, d: nat)
    requires RelayOk(x, sent, d) && IdsInOrder(sent) && x.next == |x.batch|
    ensures x.batch[|x.batch| - 1].id <= d
  {
    var gone: nat :| gone + x.next <= d && Stretch(x.batch, sent, gone);
    assert x.batch[|x.batch| - 1] == sent[gone + |x.batch| - 1];
  }

  lemma DropStretch<M>(rows: seq<Row<M>>, sent: seq<Row<M>>, gone: nat, k: nat)
    requires Stretch(rows, sent, gone) && k <= |rows|
    ensures Stretch(rows[k..], sent, gone + k)
  {
  }

  lemma OutboxCleared<M>(outbox: seq<Row<M>>, sent: seq<Row<M>>, d: nat, upTo: nat)
    requires IdsInOrder(sent) && OutboxOk(outbox, sent, d) && upTo <= d
    ensures OutboxOk(Clear(outbox, upTo), sent, d) && TableOk(Clear(outbox, upTo), sent, d)
  {
    var gone: nat :| gone <= d && Stretch(outbox, sent, gone) && gone + |outbox| == |sent|;
    ClearStretch(outbox, sent, gone, upTo);
    var k := if upTo <= gone then 0 else Min(upTo - gone, |outbox|);
    DropStretch(outbox, sent, gone, k);
    assert gone + k <= d && Stretch(Clear(outbox, upTo), sent, gone + k);
  }

  lemma DoneSafe<M>(w: Net<M>, upTo: nat)
    requires Safe(w)
    ensures Safe(Next(w, Done(upTo)))
  {
    if upTo in w.dones {
      SameSends(w, Next(w, Done(upTo)));
      OutboxCleared(w.outbox, w.sent, Delivered(w), upTo);
      hide SendsOk, OutboxOk, VersionsOk, RelaysOk, TableOk, Delivered;
      VersionsGrow(w.versions, Clear(w.outbox, upTo), w.sent, Delivered(w));
    }
  }

  lemma {:induction false} AlwaysSafe<M>(events: seq<Event<M>>)
    ensures Safe(Run(events))
  {
    if events == [] {
      assert Stretch<M>([], [], 0);
      assert TableOk<M>([], [], 0);
    } else {
      hide Safe, Next;
      AlwaysSafe(events[..|events| - 1]);
      var w := Run(events[..|events| - 1]);
      match events[|events| - 1]
      case Send(msgs) => SendSafe(w, msgs);
      case Begin(r, v) => BeginSafe(w, r, v);
      case Attempt(r) => AttemptSafe(w, r);
      case Land(id) => LandSafe(w, id);
      case Acknowledge(r) => AcknowledgeSafe(w, r);
      case Stop(r) => StopSafe(w, r);
      case Finish(r) => FinishSafe(w, r);
      case Done(upTo) => DoneSafe(w, upTo);
    }
  }

  /** Main result, order: leaving repeats out, what reached the target logs is a prefix of what
      the log sent, in the order it was sent, whatever relays ran and however they failed. */
  lemma DeliveriesArePrefixOfSends<M>(events: seq<Event<M>>)
    ensures FirstLandings(Run(events).landed) <= Run(events).sent
  {
    AlwaysSafe(events);
  }

  /** Main result, no loss: every follow-up ever sent is still waiting or has been delivered,
      and the outbox holds exactly a tail of what was sent, so no OutboxDone ever deletes a
      follow-up that has not been delivered. */
  lemma NothingIsLost<M>(events: seq<Event<M>>)
    ensures var w := Run(events);
            && (forall row <- w.sent :: row in w.outbox || row in w.landed)
            && |w.outbox| <= |w.sent| && w.outbox == w.sent[|w.sent| - |w.outbox|..]
            && (forall upTo <- w.dones, row <- w.sent :: row.id <= upTo ==> row in w.landed)
  {
    AlwaysSafe(events);
    SafeLosesNothing(Run(events));
  }

  lemma SafeLosesNothing<M>(w: Net<M>)
    requires Safe(w)
    ensures forall row <- w.sent :: row in w.outbox || row in w.landed
    ensures |w.outbox| <= |w.sent| && w.outbox == w.sent[|w.sent| - |w.outbox|..]
    ensures forall upTo <- w.dones, row <- w.sent :: row.id <= upTo ==> row in w.landed
  {
    var d := Delivered(w);
    var gone: nat :| gone <= d && Stretch(w.outbox, w.sent, gone) && gone + |w.outbox| == |w.sent|;
    forall k | 0 <= k < d ensures w.sent[k] in w.landed {
      assert FirstLandings(w.landed)[k] == w.sent[k];
    }
    forall row <- w.sent ensures row in w.outbox || row in w.landed {
      var k :| 0 <= k < |w.sent| && w.sent[k] == row;
      if gone <= k { assert w.outbox[k - gone] == row; }
    }
    forall upTo <- w.dones, row <- w.sent | row.id <= upTo ensures row in w.landed {
      var k :| 0 <= k < |w.sent| && w.sent[k] == row;
      assert row.id == k + 1;
    }
  }

  /** Each target log's share of the deliveries is in order too. */
  function For<M>(rows: seq<Row<M>>, target: LogId): (share: seq<Row<M>>)
    ensures (forall row <- share :: row in rows && row.target == target)
    ensures (forall row <- rows | row.target == target :: row in share)
  {
    if rows == [] then [] else
      assert rows == rows[..|rows| - 1] + [rows[|rows| - 1]];
      For(rows[..|rows| - 1], target) +
      (if rows[|rows| - 1].target == target then [rows[|rows| - 1]] else [])
  }

  lemma {:induction false} ForKeepsPrefix<M>(a: seq<Row<M>>, b: seq<Row<M>>, target: LogId)
    requires a <= b
    ensures For(a, target) <= For(b, target)
  {
    if |a| < |b| {
      assert a <= b[..|b| - 1];
      ForKeepsPrefix(a, b[..|b| - 1], target);
    } else {
      assert a == b;
    }
  }

  lemma EachTargetSeesSendOrder<M>(events: seq<Event<M>>, target: LogId)
    ensures For(FirstLandings(Run(events).landed), target) <= For(Run(events).sent, target)
  {
    DeliveriesArePrefixOfSends(events);
    ForKeepsPrefix(FirstLandings(Run(events).landed), Run(events).sent, target);
  }

  // ---- And what is sent can be delivered ----

  /** All the follow-ups of a run's commands, in order. */
  function Sendings<M>(events: seq<Event<M>>): seq<(LogId, M)> {
    if events == [] then [] else
      Sendings(events[..|events| - 1]) + (if events[|events| - 1].Send? then events[|events| - 1].msgs else [])
  }

  /** The log's history is the follow-ups of its commands, numbered from 1. */
  lemma {:induction false} SentIs<M>(events: seq<Event<M>>)
    ensures Run(events).sent == Numbered(Sendings(events), 0)
  {
    if events != [] { SentIs(events[..|events| - 1]); }
  }

  lemma RunThen<M>(events: seq<Event<M>>, e: Event<M>)
    ensures Run(events + [e]) == Next(Run(events), e)
  {
    assert (events + [e])[..|events|] == events;
  }

  ghost predicate LatestIsNow<M>(w: Net<M>) {
    |w.versions| > 0 && w.versions[|w.versions| - 1] == w.outbox
  }

  lemma LatestStep<M>(w: Net<M>, e: Event<M>)
    requires LatestIsNow(w)
    ensures LatestIsNow(Next(w, e))
  {
    hide Clear, Numbered, Oldest;
  }

  lemma {:induction false} LatestVersion<M>(events: seq<Event<M>>)
    ensures LatestIsNow(Run(events))
  {
    hide Next, LatestIsNow;
    if events == [] {
      LatestAtStart<M>();
    } else {
      LatestVersion(events[..|events| - 1]);
      LatestStep(Run(events[..|events| - 1]), events[|events| - 1]);
    }
  }

  lemma LatestAtStart<M>()
    ensures LatestIsNow(Start<M>())
  {
  }

  /** Relay r has a batch from the outbox's first rows, and has delivered some. */
  ghost predicate Relaying<M>(w: Net<M>, r: nat, outbox: seq<Row<M>>, sent: seq<Row<M>>, next: nat) {
    w.sent == sent && w.outbox == outbox != [] && r in w.relays && w.relays[r] == Relay(Oldest(outbox, BATCH), next)
  }

  lemma RelayRow<M>(x: Relay<M>, sent: seq<Row<M>>, delivered: nat, k: nat)
    requires RelayOk(x, sent, delivered) && IdsInOrder(sent) && k < |x.batch|
    ensures 1 <= x.batch[k].id <= |sent| && x.batch[k] == sent[x.batch[k].id - 1]
  {
    var gone: nat :| gone + x.next <= delivered && Stretch(x.batch, sent, gone);
    assert x.batch[k] == sent[gone + k];
  }

  /** A row of a relay's batch is one that was sent. */
  lemma InBatch<M>(events: seq<Event<M>>, r: nat, k: nat)
    requires r in Run(events).relays && k < |Run(events).relays[r].batch|
    ensures var row, sent := Run(events).relays[r].batch[k], Run(events).sent;
            1 <= row.id <= |sent| && row == sent[row.id - 1]
  {
    AlwaysSafe(events);
    AlwaysNumbered(events);
    hide Run, SendsOk, OutboxOk, VersionsOk, SubmittedOk, RelayOk, Delivered, IdsInOrder;
    var w := Run(events);
    RelayRow(w.relays[r], w.sent, Delivered(w), k);
  }

  lemma AlwaysNumbered<M>(events: seq<Event<M>>)
    ensures IdsInOrder(Run(events).sent)
  {
    SentIs(events);
  }

  /** The next row of a batch can be submitted, applied and acknowledged. */
  lemma DeliverRow<M>(events: seq<Event<M>>, r: nat, outbox: seq<Row<M>>, sent: seq<Row<M>>, next: nat)
      returns (more: seq<Event<M>>)
    requires Relaying(Run(events), r, outbox, sent, next) && next < |Oldest(outbox, BATCH)|
    ensures Relaying(Run(events + more), r, outbox, sent, next + 1)
  {
    hide Run, Oldest;
    var row := Oldest(outbox, BATCH)[next];
    InBatch(events, r, next);
    more := [Attempt(r), Land(row.id), Acknowledge(r)];
    RunThen(events, Attempt(r));
    RunThen(events + [Attempt(r)], Land(row.id));
    RunThen(events + [Attempt(r)] + [Land(row.id)], Acknowledge(r));
    assert events + more == events + [Attempt(r)] + [Land(row.id)] + [Acknowledge(r)];
  }

  lemma {:induction false} DeliverRows<M>(events: seq<Event<M>>, r: nat, outbox: seq<Row<M>>, sent: seq<Row<M>>,
                                          next: nat)
      returns (more: seq<Event<M>>)
    requires Relaying(Run(events), r, outbox, sent, next) && next <= |Oldest(outbox, BATCH)|
    ensures Relaying(Run(events + more), r, outbox, sent, |Oldest(outbox, BATCH)|)
    decreases |outbox| - next
  {
    hide Run, Relaying;
    if next == |Oldest(outbox, BATCH)| {
      more := [];
      assert events + more == events;
    } else {
      var one := DeliverRow(events, r, outbox, sent, next);
      var rest := DeliverRows(events + one, r, outbox, sent, next + 1);
      more := one + rest;
      assert events + more == events + one + rest;
    }
  }

  /** A batch whose rows were delivered can be cleared. */
  lemma ClearDelivered<M>(events: seq<Event<M>>, r: nat, outbox: seq<Row<M>>, sent: seq<Row<M>>)
      returns (more: seq<Event<M>>)
    requires Relaying(Run(events), r, outbox, sent, |Oldest(outbox, BATCH)|)
    requires forall j, k | 0 <= j < k < |outbox| :: outbox[j].id < outbox[k].id
    ensures Run(events + more).sent == sent && Run(events + more).outbox == outbox[|Oldest(outbox, BATCH)|..]
  {
    hide Run, Clear;
    var n := |Oldest(outbox, BATCH)|;
    var upTo := outbox[n - 1].id;
    ClearOldest(outbox, n);
    more := [Finish(r), Done(upTo)];
    RunThen(events, Finish(r));
    RunThen(events + [Finish(r)], Done(upTo));
    assert events + more == events + [Finish(r)] + [Done(upTo)];
  }

  lemma OutboxInOrder<M>(events: seq<Event<M>>)
    ensures var rows := Run(events).outbox; forall j, k | 0 <= j < k < |rows| :: rows[j].id < rows[k].id
  {
    AlwaysSafe(events);
    AlwaysNumbered(events);
    var w := Run(events);
    assert OutboxOk(w.outbox, w.sent, Delivered(w));
    hide Run, SendsOk, VersionsOk, RelaysOk, SubmittedOk, FirstLandings;
  }

  lemma BeginBatch<M>(events: seq<Event<M>>) returns (begin: Event<M>)
    requires Run(events).outbox != []
    ensures Relaying(Run(events + [begin]), 0, Run(events).outbox, Run(events).sent, 0)
  {
    hide Run;
    LatestVersion(events);
    var w := Run(events);
    begin := Begin(0, |w.versions| - 1);
    RunThen(events, begin);
  }

  lemma DrainBatch<M>(events: seq<Event<M>>) returns (more: seq<Event<M>>)
    requires Run(events).outbox != []
    ensures Run(events + more).sent == Run(events).sent
    ensures Run(events + more).outbox == Run(events).outbox[|Oldest(Run(events).outbox, BATCH)|..]
  {
    hide Run, Relaying, Oldest;
    var outbox, sent := Run(events).outbox, Run(events).sent;
    OutboxInOrder(events);
    var begin := BeginBatch(events);
    var rows := DeliverRows(events + [begin], 0, outbox, sent, 0);
    var clear := ClearDelivered(events + [begin] + rows, 0, outbox, sent);
    more := [begin] + rows + clear;
    assert events + more == events + [begin] + rows + clear;
  }

  /** Main result. However a run went, what waits can still be delivered and the outbox emptied, with
      nothing new sent. */
  lemma {:induction false} CanAlwaysDrain<M>(events: seq<Event<M>>) returns (more: seq<Event<M>>)
    ensures Run(events + more).outbox == [] && Run(events + more).sent == Run(events).sent
    ensures forall row <- Run(events).sent :: row in Run(events + more).landed
    decreases |Run(events).outbox|
  {
    if Run(events).outbox == [] {
      more := [];
      assert events + more == events;
      NothingIsLost(events);
    } else {
      var batch := DrainBatch(events);
      var rest := CanAlwaysDrain(events + batch);
      more := batch + rest;
      assert events + more == events + batch + rest;
    }
  }

  // ---- relay's own loop ----

  /** What Apply answered for a follow-up. */
  datatype Answer = Applied | Refused /* an input error: dropped */ | Failed /* anything else: stop */

  /** What happens to a relay from outside: the answer to its nth Apply, whether it still leads
      before its nth batch, and whether its nth OutboxDone is applied. */
  datatype Fate = Fate(answer: nat -> Answer, leads: nat -> bool, cleared: nat -> bool)

  /** Of rows asked about from the given number on, those that got this answer. */
  function Answered<M>(rows: seq<Row<M>>, asked: nat, answer: nat -> Answer, a: Answer): seq<Row<M>> {
    if rows == [] then [] else
      (if answer(asked) == a then [rows[0]] else []) + Answered(rows[1..], asked + 1, answer, a)
  }

  lemma {:induction false} AnsweredConcat<M>(xs: seq<Row<M>>, ys: seq<Row<M>>, asked: nat, answer: nat -> Answer,
                                             a: Answer)
    ensures Answered(xs + ys, asked, answer, a) ==
            Answered(xs, asked, answer, a) + Answered(ys, asked + |xs|, answer, a)
  {
    if xs == [] {
      assert xs + ys == ys;
    } else {
      assert (xs + ys)[1..] == xs[1..] + ys;
      AnsweredConcat(xs[1..], ys, asked + 1, answer, a);
    }
  }

  /** How far a pass over n rows gets: b batches are cleared, so `cleared` rows are gone, and `sent`
      rows got an answer that is not a failure. */
  ghost predicate Reaches(f: Fate, n: nat, b: nat, cleared: nat, sent: nat) {
    && cleared == Min(b * BATCH, n) && cleared <= sent <= Min((b + 1) * BATCH, n)
    && (forall i | 0 <= i < b :: f.leads(i) && f.cleared(i))
    && (forall k | 0 <= k < sent :: f.answer(k) != Failed)
    && (sent > cleared ==> f.leads(b))
  }

  /** Why a pass stops there: it no longer leads, nothing waits, the next row failed, or its OutboxDone did. */
  ghost predicate StopsAt(f: Fate, n: nat, b: nat, cleared: nat, sent: nat) {
    || (sent == cleared && (!f.leads(b) || cleared == n))
    || (f.leads(b) && sent < Min((b + 1) * BATCH, n) && f.answer(sent) == Failed)
    || (f.leads(b) && cleared < sent == Min((b + 1) * BATCH, n) && !f.cleared(b))
  }

  /** Where a pass over the table `was` has got to: the rows of b cleared batches left the outbox, and
      of those asked about, each is applied or dropped as it was answered. */
  ghost predicate SoFar<M>(f: Fate, was: Shares<M>, now: Shares<M>, b: nat, cleared: nat, sent: nat) {
    && Reaches(f, |was.outbox|, b, cleared, sent)
    && now.outbox == was.outbox[cleared..]
    && now.applied == was.applied + Answered(was.outbox[..sent], 0, f.answer, Applied)
    && now.dropped == was.dropped + Answered(was.outbox[..sent], 0, f.answer, Refused)
  }

  /** A pass that is over: it got as far as it could. */
  ghost predicate Over<M>(f: Fate, was: Shares<M>, now: Shares<M>) {
    exists b, cleared, sent :: SoFar(f, was, now, b, cleared, sent) && StopsAt(f, |was.outbox|, b, cleared, sent)
  }

  /** What waits, what the target logs applied, and what they refused as input and is dropped. */
  datatype Shares<M> = Shares(outbox: seq<Row<M>>, applied: seq<Row<M>>, dropped: seq<Row<M>>)

  class Shard<M> {
    var outbox: seq<Row<M>>
    /** What the target logs applied, and what they refused as input and is dropped. */
    var applied: seq<Row<M>>
    var dropped: seq<Row<M>>

    constructor ()
      ensures outbox == [] && applied == [] && dropped == []
    {
      outbox, applied, dropped := [], [], [];
    }

    ghost predicate Valid()
      reads this
    {
      forall j, k | 0 <= j < k < |outbox| :: outbox[j].id < outbox[k].id
    }

    /** A batch's rows, in order, up to the first that fails. */
    method Deliver(items: seq<Row<M>>, asked: nat, f: Fate) returns (n: nat)
      modifies this
      ensures outbox == old(outbox) && n <= |items|
      ensures (forall k | asked <= k < asked + n :: f.answer(k) != Failed) &&
              (n < |items| ==> f.answer(asked + n) == Failed)
      ensures applied == old(applied) + Answered(items[..n], asked, f.answer, Applied)
      ensures dropped == old(dropped) + Answered(items[..n], asked, f.answer, Refused)
    {
      n := 0;
      hide Answered;
      assert Answered(items[..0], asked, f.answer, Applied) == [] == Answered(items[..0], asked, f.answer, Refused) by {
        AnsweredNone<M>(asked, f.answer);
      }
      while n < |items|
        invariant n <= |items| && outbox == old(outbox) && forall k | asked <= k < asked + n :: f.answer(k) != Failed
        invariant applied == old(applied) + Answered(items[..n], asked, f.answer, Applied)
        invariant dropped == old(dropped) + Answered(items[..n], asked, f.answer, Refused)
      {
        var answer := f.answer(asked + n);
        if answer == Failed {
          return; // will retry
        }
        OneMoreAnswered(items, n, asked, f.answer);
        if answer == Refused {
          dropped := dropped + [items[n]]; // it would fail forever
        } else {
          applied := applied + [items[n]];
        }
        n := n + 1;
      }
    }

    /** A batch: deliver its rows, and clear them if all went. */
    method RelayBatch(items: seq<Row<M>>, b: nat, asked: nat, f: Fate) returns (n: nat, ok: bool)
      requires Valid() && items != [] && items <= outbox
      modifies this
      ensures Valid() && n <= |items| && forall k | asked <= k < asked + n :: f.answer(k) != Failed
      ensures applied == old(applied) + Answered(items[..n], asked, f.answer, Applied)
      ensures dropped == old(dropped) + Answered(items[..n], asked, f.answer, Refused)
      ensures ok <==> n == |items| && f.cleared(b)
      ensures n < |items| ==> f.answer(asked + n) == Failed
      ensures outbox == if ok then old(outbox)[|items|..] else old(outbox)
    {
      n := Deliver(items, asked, f);
      ok := n == |items| && f.cleared(b);
      if ok {
        ClearBatch(outbox, items);
        outbox := Clear(outbox, items[|items| - 1].id);
      }
    }

    ghost function Now(): Shares<M>
      reads this
    {
      Shares(outbox, applied, dropped)
    }

    /** One pass of relay with nobody interfering. The rows are asked about in order; those before the
        first failure are applied or dropped as they were answered, and of those the rows of the
        batches that were delivered whole and cleared, and no others, leave the outbox. */
    method Relay(f: Fate) returns (drained: bool)
      requires Valid()
      modifies this
      ensures Valid()
      ensures Over(f, old(Now()), Now())
      ensures drained <==> outbox == []
    {
      var asked: nat, batches: nat := 0, 0;
      ghost var was := Now();
      drained := false;
      ReachesNothing(f, was);
      hide Over, SoFar, Answered;
      while f.leads(batches)
        invariant SoFar(f, was, Now(), batches, asked, asked) && !drained && Valid()
        decreases |outbox|
      {
        var items := Oldest(outbox, BATCH);
        if items == [] {
          StopsIdle(f, was, Now(), batches, asked);
          drained := true;
          return;
        }
        ghost var before := Now();
        var n, ok := RelayBatch(items, batches, asked, f);
        BatchReaches(f, was, before, Now(), batches, asked, items, n, ok);
        if !ok {
          return;
        }
        asked := asked + |items|;
        batches := batches + 1;
      }
      StopsIdle(f, was, Now(), batches, asked);
      drained := outbox == [];
    }
  }

  /** Where a batch leaves the pass: one batch further, or at its end. */
  lemma BatchReaches<M>(f: Fate, was: Shares<M>, before: Shares<M>, now: Shares<M>, b: nat, asked: nat,
                        items: seq<Row<M>>, n: nat, ok: bool)
    requires SoFar(f, was, before, b, asked, asked) && f.leads(b) && n <= |items|
    requires items == Oldest(before.outbox, BATCH) != []
    requires forall k | asked <= k < asked + n :: f.answer(k) != Failed
    requires now.applied == before.applied + Answered(items[..n], asked, f.answer, Applied)
    requires now.dropped == before.dropped + Answered(items[..n], asked, f.answer, Refused)
    requires (ok <==> n == |items| && f.cleared(b)) && (n < |items| ==> f.answer(asked + n) == Failed)
    requires now.outbox == if ok then before.outbox[|items|..] else before.outbox
    ensures ok ==> SoFar(f, was, now, b + 1, asked + |items|, asked + |items|)
    ensures !ok ==> Over(f, was, now)
  {
    ReachesOn(f, was, before, now.(outbox := before.outbox), b, asked, items, n);
    if ok {
      LeaveOutbox(f, was, before, now, b, asked, items);
    } else {
      hide Answered, SoFar;
      assert StopsAt(f, |was.outbox|, b, asked, asked + n) by { BatchesBefore(f, was, before, b, asked); }
    }
  }

  lemma BatchesBefore<M>(f: Fate, was: Shares<M>, now: Shares<M>, b: nat, asked: nat)
    requires SoFar(f, was, now, b, asked, asked)
    ensures asked == Min(b * BATCH, |was.outbox|) && asked + |now.outbox| == |was.outbox|
  {
    hide Answered;
  }

  lemma ReachesNothing<M>(f: Fate, was: Shares<M>)
    ensures SoFar(f, was, was, 0, 0, 0)
  {
  }

  /** A batch's rows were answered, all or some. */
  lemma ReachesOn<M>(f: Fate, was: Shares<M>, before: Shares<M>, now: Shares<M>, b: nat, asked: nat, items: seq<Row<M>>,
                     n: nat)
    requires SoFar(f, was, before, b, asked, asked) && f.leads(b) && items == Oldest(before.outbox, BATCH) &&
             n <= |items|
    requires (forall k | asked <= k < asked + n :: f.answer(k) != Failed) && now.outbox == before.outbox
    requires now.applied == before.applied + Answered(items[..n], asked, f.answer, Applied)
    requires now.dropped == before.dropped + Answered(items[..n], asked, f.answer, Refused)
    ensures SoFar(f, was, now, b, asked, asked + n) && asked == Min(b * BATCH, |was.outbox|)
  {
    MoreAnswered(was.outbox, asked, items, n, f.answer);
    hide Answered;
  }

  /** Once the whole batch was, and its OutboxDone is applied, it leaves. */
  lemma LeaveOutbox<M>(f: Fate, was: Shares<M>, before: Shares<M>, now: Shares<M>, b: nat, asked: nat,
                       items: seq<Row<M>>)
    requires SoFar(f, was, before, b, asked, asked) && items == Oldest(before.outbox, BATCH) && f.leads(b) &&
             f.cleared(b)
    requires SoFar(f, was, now.(outbox := before.outbox), b, asked, asked + |items|)
    requires now.outbox == before.outbox[|items|..]
    ensures SoFar(f, was, now, b + 1, asked + |items|, asked + |items|)
  {
    hide Answered;
  }

  lemma StopsIdle<M>(f: Fate, was: Shares<M>, now: Shares<M>, b: nat, asked: nat)
    requires SoFar(f, was, now, b, asked, asked) && (!f.leads(b) || now.outbox == [])
    ensures Over(f, was, now)
  {
    hide Answered;
  }

  lemma AnsweredNone<M>(asked: nat, answer: nat -> Answer)
    ensures forall a :: Answered<M>([], asked, answer, a) == []
  {
  }

  lemma OneMoreAnswered<M>(items: seq<Row<M>>, n: nat, asked: nat, answer: nat -> Answer)
    requires n < |items|
    ensures forall a :: Answered(items[..n + 1], asked, answer, a) ==
                        Answered(items[..n], asked, answer, a) + (if answer(asked + n) == a then [items[n]] else [])
  {
    assert items[..n + 1] == items[..n] + [items[n]];
    forall a ensures Answered(items[..n + 1], asked, answer, a) ==
                     Answered(items[..n], asked, answer, a) + (if answer(asked + n) == a then [items[n]] else [])
    {
      AnsweredConcat(items[..n], [items[n]], asked, answer, a);
      assert [items[n]][1..] == [];
    }
  }

  /** The rows of a batch that were answered, behind those of the batches before. */
  lemma MoreAnswered<M>(was: seq<Row<M>>, asked: nat, items: seq<Row<M>>, n: nat, answer: nat -> Answer)
    requires asked <= |was| && items <= was[asked..] && n <= |items|
    ensures forall a :: Answered(was[..asked + n], 0, answer, a) ==
                        Answered(was[..asked], 0, answer, a) + Answered(items[..n], asked, answer, a)
  {
    assert was[..asked + n] == was[..asked] + items[..n];
    forall a ensures Answered(was[..asked + n], 0, answer, a) ==
                     Answered(was[..asked], 0, answer, a) + Answered(items[..n], asked, answer, a)
    {
      AnsweredConcat(was[..asked], items[..n], 0, answer, a);
    }
  }

  /** Main result. A row that fails, and everything behind it, is neither applied nor dropped and stays
      in the outbox. */
  lemma FailureStays<M>(f: Fate, was: Shares<M>, now: Shares<M>, k: nat)
    requires Over(f, was, now) && k < |was.outbox| && f.answer(k) == Failed
    ensures now.outbox != [] && |was.outbox| - k <= |now.outbox|
    ensures now.outbox[|now.outbox| - (|was.outbox| - k)..] == was.outbox[k..]
    ensures exists sent | 0 <= sent <= k ::
              now.applied == was.applied + Answered(was.outbox[..sent], 0, f.answer, Applied) &&
              now.dropped == was.dropped + Answered(was.outbox[..sent], 0, f.answer, Refused)
  {
    hide Answered, StopsAt;
  }

  /** When all goes well, a pass leaves nothing waiting. */
  lemma AllWellDrains<M>(f: Fate, was: Shares<M>, now: Shares<M>)
    requires Over(f, was, now) && forall k :: f.answer(k) != Failed && f.leads(k) && f.cleared(k)
    ensures now.outbox == []
    ensures now.applied == was.applied + Answered(was.outbox, 0, f.answer, Applied)
    ensures now.dropped == was.dropped + Answered(was.outbox, 0, f.answer, Refused)
  {
    hide Answered;
    assert was.outbox[..|was.outbox|] == was.outbox;
  }

  /** A batch's OutboxDone leaves the rows behind it. */
  lemma ClearBatch<M>(outbox: seq<Row<M>>, items: seq<Row<M>>)
    requires items != [] && items <= outbox
    requires forall j, k | 0 <= j < k < |outbox| :: outbox[j].id < outbox[k].id
    ensures var rest := Clear(outbox, items[|items| - 1].id);
            rest == outbox[|items|..] && forall j, k | 0 <= j < k < |rest| :: rest[j].id < rest[k].id
  {
    assert items[|items| - 1] == outbox[|items| - 1];
    ClearOldest(outbox, |items|);
    var rest := outbox[|items|..];
    assert forall k | 0 <= k < |rest| :: rest[k] == outbox[k + |items|];
  }

  lemma {:induction false} ClearOldest<M>(rows: seq<Row<M>>, n: nat)
    requires forall j, k | 0 <= j < k < |rows| :: rows[j].id < rows[k].id
    requires 0 < n <= |rows|
    ensures Clear(rows, rows[n - 1].id) == rows[n..]
    decreases |rows|
  {
    assert rows[0].id <= rows[n - 1].id;
    if n == 1 {
      ClearNone(rows[1..], rows[0].id);
    } else {
      ClearOldest(rows[1..], n - 1);
    }
  }

  lemma ClearNone<M>(rows: seq<Row<M>>, upTo: nat)
    requires forall k | 0 <= k < |rows| :: upTo < rows[k].id
    ensures Clear(rows, upTo) == rows
  {
  }
}
