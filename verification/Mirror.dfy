/**
 site.db's copy of a group's name, visibility and "Use AI" setting, kept in step by the
 MirrorGroup follow-up that UpdateSettings sends through the group's outbox
 (internal/cmd/settings.go, internal/cmd/crosslog.go, internal/cmd/site.go).

 The group's own settings are the values of the last MirrorGroup it sent, and site.db's copy
 is the values of the last one that landed; both start as CreateGroup wrote them.
 */
module Mirror {
  import opened Outbox

  datatype Mirrored = Mirrored(name: string, visibility: string, aiEnabled: bool)

  const SITE: LogId := 0

  datatype Msg = MirrorGroup(values: Mirrored) | OtherFollowUp

  type MirrorNet = Net<Msg>

  /** The values of the last MirrorGroup in a table or a history, or start if it has none. */
  function LastMirror(rows: seq<Row<Msg>>, start: Mirrored): Mirrored {
    if rows == [] then start
    else if rows[|rows| - 1].msg.MirrorGroup? then rows[|rows| - 1].msg.values
    else LastMirror(rows[..|rows| - 1], start)
  }

  predicate HasMirror(rows: seq<Row<Msg>>) {
    exists row <- rows :: row.msg.MirrorGroup?
  }

  /** Coherence: with no MirrorGroup waiting, site.db's copy equals the group's settings;
      otherwise the last one waiting equals them. */
  ghost predicate Coherent(w: MirrorNet, start: Mirrored) {
    LastMirror(w.outbox, LastMirror(w.landed, start)) == LastMirror(w.sent, start)
  }

  lemma {:induction false} MirrorCases(rows: seq<Row<Msg>>, start: Mirrored)
    ensures !HasMirror(rows) ==> LastMirror(rows, start) == start
    ensures HasMirror(rows) ==> forall other :: LastMirror(rows, other) == LastMirror(rows, start)
  {
    if rows != [] {
      var init := rows[..|rows| - 1];
      MirrorCases(init, start);
      assert rows == init + [rows[|rows| - 1]];
    }
  }

  lemma {:induction false} LastMirrorConcat(a: seq<Row<Msg>>, b: seq<Row<Msg>>, start: Mirrored)
    ensures LastMirror(a + b, start) == LastMirror(b, LastMirror(a, start))
  {
    if b == [] {
      assert a + b == a;
    } else {
      assert (a + b)[..|a + b| - 1] == a + b[..|b| - 1];
      LastMirrorConcat(a, b[..|b| - 1], start);
    }
  }

  /** In terms of the two cases a reader cares about. */
  lemma CoherentMeans(w: MirrorNet, start: Mirrored)
    ensures Coherent(w, start) <==>
            if HasMirror(w.outbox) then LastMirror(w.outbox, start) == LastMirror(w.sent, start)
            else LastMirror(w.landed, start) == LastMirror(w.sent, start)
  {
    MirrorCases(w.outbox, start);
    MirrorCases(w.outbox, LastMirror(w.landed, start));
  }

  // ---- One relay at a time ----

  /** The id of the last delivery, 0 before the first. */
  function LastLanded(w: MirrorNet): nat {
    if w.landed == [] then 0 else w.landed[|w.landed| - 1].id
  }

  function Cleared(w: MirrorNet): int { |w.sent| - |w.outbox| }

  /** What "one relay at a time" allows: a relay starts only when no other runs, from the table
      as it is now; only the row it is waiting for can land; and its OutboxDone commits before
      anyone delivers anything again, or never. Crashes and redelivery are still free. */
  predicate OneAtATime(w: MirrorNet, e: Event<Msg>) {
    match e
    case Begin(r, v) => w.relays == map[] && v == |w.versions| - 1
    case Land(id) =>
      exists r <- w.relays :: w.relays[r].next < |w.relays[r].batch| && w.relays[r].batch[w.relays[r].next].id == id
    case Acknowledge(r) =>
      r in w.relays && w.relays[r].next < |w.relays[r].batch| ==> w.relays[r].batch[w.relays[r].next].id == LastLanded(w)
    case Done(upTo) => w.relays == map[] && LastLanded(w) == upTo
    case _ => true
  }

  ghost predicate Serial(events: seq<Event<Msg>>) {
    forall k | 0 <= k < |events| :: OneAtATime(Run(events[..k]), events[k])
  }

  /** Delivering the rest of what was sent, after the last delivery, would give the settings. */
  ghost predicate OnTrack(w: MirrorNet, start: Mirrored) {
    && LastLanded(w) <= |w.sent|
    && LastMirror(w.sent[LastLanded(w)..], LastMirror(w.landed, start)) == LastMirror(w.sent, start)
  }

  /** The delivery point never falls behind what was cleared, and a running relay works on the
      first waiting rows. */
  ghost predicate Tidy(w: MirrorNet) {
    && |w.outbox| <= |w.sent| && Stretch(w.outbox, w.sent, Cleared(w))
    && |w.versions| > 0 && w.versions[|w.versions| - 1] == w.outbox
    && Cleared(w) <= LastLanded(w) <= |w.sent|
    && (forall r, s | r in w.relays && s in w.relays :: r == s)
    && (forall r <- w.relays :: WorksOnFirst(w, w.relays[r]))
  }

  ghost predicate WorksOnFirst(w: MirrorNet, x: Relay<Msg>)
    requires |w.outbox| <= |w.sent|
  {
    && Stretch(x.batch, w.sent, Cleared(w))
    && x.next <= |x.batch|
    && Cleared(w) + x.next <= LastLanded(w)
  }

  /** Splitting what was sent at any point: a suffix with a MirrorGroup in it gives the settings
      by itself; otherwise the settings were decided before it. */
  lemma SuffixDecides(sent: seq<Row<Msg>>, k: nat, start: Mirrored)
    requires k <= |sent|
    ensures HasMirror(sent[k..]) ==> forall other :: LastMirror(sent[k..], other) == LastMirror(sent, start)
    ensures !HasMirror(sent[k..]) ==> LastMirror(sent[..k], start) == LastMirror(sent, start)
  {
    assert sent == sent[..k] + sent[k..];
    LastMirrorConcat(sent[..k], sent[k..], start);
    MirrorCases(sent[k..], LastMirror(sent[..k], start));
  }

  /** A delivery at most one past the last one keeps the track. */
  lemma LandKeepsTrack(w: MirrorNet, id: nat, start: Mirrored)
    requires IdsInOrder(w.sent) && OnTrack(w, start)
    requires 1 <= id <= LastLanded(w) + 1 && id <= |w.sent| && id in w.attempts
    ensures OnTrack(Next(w, Land(id)), start)
  {
    var site, row, w' := LastMirror(w.landed, start), w.sent[id - 1], Next(w, Land(id));
    assert w'.landed[..|w'.landed| - 1] == w.landed && LastLanded(w') == id;
    var now := LastMirror(w'.landed, start);
    SuffixDecides(w.sent, id, start);
    MirrorCases(w.sent[id..], now);
    if !HasMirror(w.sent[id..]) {
      if row.msg.MirrorGroup? {
        LastIsRow(w.sent, id, start);
      } else {
        NoneBehind(w, id, start);
      }
    }
  }

  /** With no MirrorGroup behind it, a MirrorGroup gives the settings. */
  lemma LastIsRow(sent: seq<Row<Msg>>, id: nat, start: Mirrored)
    requires 1 <= id <= |sent| && sent[id - 1].msg.MirrorGroup? && !HasMirror(sent[id..])
    ensures LastMirror(sent, start) == sent[id - 1].msg.values
  {
    var row := sent[id - 1];
    assert sent[id - 1..] == [row] + sent[id..] && row in sent[id - 1..];
    SuffixDecides(sent, id - 1, start);
    LastMirrorConcat([row], sent[id..], start);
    MirrorCases(sent[id..], row.msg.values);
  }

  /** A row that is no MirrorGroup, with none behind it: there is none from it on either. */
  lemma NoneFromHere(sent: seq<Row<Msg>>, id: nat, from: nat)
    requires 1 <= id <= from + 1 && id <= |sent| && from <= |sent|
    requires !sent[id - 1].msg.MirrorGroup? && !HasMirror(sent[id..])
    ensures !HasMirror(sent[from..])
  {
    forall k | from <= k < |sent| ensures !sent[k].msg.MirrorGroup? {
      if k >= id {
        assert sent[k] == sent[id..][k - id];
      }
    }
  }

  /** With none at or behind row id, and id at most one past the last delivery, the site is right. */
  lemma NoneBehind(w: MirrorNet, id: nat, start: Mirrored)
    requires OnTrack(w, start) && 1 <= id <= LastLanded(w) + 1 && id <= |w.sent|
    requires !w.sent[id - 1].msg.MirrorGroup? && !HasMirror(w.sent[id..])
    ensures LastMirror(w.landed, start) == LastMirror(w.sent, start)
  {
    var L := LastLanded(w);
    assert L <= |w.sent|;
    NoneFromHere(w.sent, id, L);
    MirrorCases(w.sent[L..], LastMirror(w.landed, start));
  }

  lemma OnTrackIsCoherent(w: MirrorNet, start: Mirrored)
    requires Tidy(w) && OnTrack(w, start)
    ensures Coherent(w, start)
  {
    var g, L := Cleared(w), LastLanded(w);
    assert w.outbox == w.sent[g..];
    SuffixDecides(w.sent, g, start);
    if !HasMirror(w.sent[g..]) {
      assert forall x <- w.sent[L..] :: x in w.sent[g..];
      MirrorCases(w.sent[L..], LastMirror(w.landed, start));
      MirrorCases(w.sent[g..], LastMirror(w.landed, start));
    }
  }

  lemma SendKeepsTrack(w: MirrorNet, msgs: seq<(LogId, Msg)>, start: Mirrored)
    requires OnTrack(w, start)
    ensures OnTrack(Next(w, Send(msgs)), start)
  {
    var rows := Numbered(msgs, |w.sent|);
    var L := LastLanded(w);
    assert (w.sent + rows)[L..] == w.sent[L..] + rows;
    LastMirrorConcat(w.sent[L..], rows, LastMirror(w.landed, start));
    LastMirrorConcat(w.sent, rows, start);
  }

  lemma SendKeepsTidy(w: MirrorNet, msgs: seq<(LogId, Msg)>)
    requires Tidy(w)
    ensures Tidy(Next(w, Send(msgs)))
  {
    var w', rows := Next(w, Send(msgs)), Numbered(msgs, |w.sent|);
    assert w'.sent == w.sent + rows && w'.outbox == w.outbox + rows && Cleared(w') == Cleared(w);
    StretchBoth(w.outbox, w.sent, rows, Cleared(w));
    hide Stretch;
    forall r <- w'.relays ensures WorksOnFirst(w', w'.relays[r]) {
      assert WorksOnFirst(w, w.relays[r]);
      StretchMore(w.relays[r].batch, w.sent, rows, Cleared(w));
    }
  }

  lemma StretchBoth(rows: seq<Row<Msg>>, sent: seq<Row<Msg>>, more: seq<Row<Msg>>, gone: nat)
    requires Stretch(rows, sent, gone) && gone + |rows| == |sent|
    ensures Stretch(rows + more, sent + more, gone)
  {
  }

  lemma StretchMore(rows: seq<Row<Msg>>, sent: seq<Row<Msg>>, more: seq<Row<Msg>>, gone: nat)
    requires Stretch(rows, sent, gone)
    ensures Stretch(rows, sent + more, gone)
  {
    assert (sent + more)[gone..gone + |rows|] == sent[gone..gone + |rows|];
  }

  /** The row a running relay is waiting for is still in the outbox, and at most one past the
      last delivery. */
  lemma CurrentRow(w: MirrorNet, r: nat)
    requires Tidy(w) && IdsInOrder(w.sent)
    requires r in w.relays && w.relays[r].next < |w.relays[r].batch|
    ensures var id := w.relays[r].batch[w.relays[r].next].id;
            id == Cleared(w) + w.relays[r].next + 1 && 1 <= id <= LastLanded(w) + 1 && id <= |w.sent|
  {
  }

  lemma LandKeepsTidy(w: MirrorNet, id: nat, start: Mirrored)
    requires IdsInOrder(w.sent) && Tidy(w) && OnTrack(w, start) && OneAtATime(w, Land(id))
    ensures Tidy(Next(w, Land(id))) && OnTrack(Next(w, Land(id)), start)
  {
    if id in w.attempts {
      var r :| r in w.relays && w.relays[r].next < |w.relays[r].batch| && w.relays[r].batch[w.relays[r].next].id == id;
      CurrentRow(w, r);
      LandKeepsTrack(w, id, start);
      var w' := Next(w, Land(id));
      forall s <- w'.relays ensures WorksOnFirst(w', w'.relays[s]) {
        assert s == r && WorksOnFirst(w, w.relays[r]);
      }
    }
  }

  lemma BeginKeepsTidy(w: MirrorNet, r: nat, v: nat)
    requires Tidy(w) && OneAtATime(w, Begin(r, v))
    ensures Tidy(Next(w, Begin(r, v)))
  {
  }

  lemma AcknowledgeKeepsTidy(w: MirrorNet, r: nat)
    requires Tidy(w) && IdsInOrder(w.sent) && OneAtATime(w, Acknowledge(r))
    ensures Tidy(Next(w, Acknowledge(r)))
  {
  }

  lemma ClearTo(rows: seq<Row<Msg>>, sent: seq<Row<Msg>>, upTo: nat)
    requires IdsInOrder(sent) && |rows| <= |sent| && Stretch(rows, sent, |sent| - |rows|)
    requires |sent| - |rows| <= upTo <= |sent|
    ensures Clear(rows, upTo) == sent[upTo..]
  {
    ClearStretch(rows, sent, |sent| - |rows|, upTo);
  }

  lemma DoneKeepsTidy(w: MirrorNet, upTo: nat)
    requires Tidy(w) && IdsInOrder(w.sent) && OneAtATime(w, Done(upTo))
    ensures Tidy(Next(w, Done(upTo)))
  {
    if upTo in w.dones {
      ClearTo(w.outbox, w.sent, upTo);
      assert Next(w, Done(upTo)) ==
        w.(outbox := w.sent[upTo..], versions := w.versions + [w.sent[upTo..]]);
    }
  }

  lemma RelayGone(w: MirrorNet, w': MirrorNet, r: nat)
    requires Tidy(w)
    requires w'.relays == w.relays || w'.relays == w.relays - {r}
    requires w'.sent == w.sent && w'.outbox == w.outbox && w'.versions == w.versions && w'.landed == w.landed
    ensures Tidy(w')
  {
  }

  lemma SameTrack(w: MirrorNet, w': MirrorNet, start: Mirrored)
    requires OnTrack(w, start) && w'.sent == w.sent && w'.landed == w.landed
    ensures OnTrack(w', start)
  {
  }

  lemma SerialStep(w: MirrorNet, e: Event<Msg>, start: Mirrored)
    requires IdsInOrder(w.sent) && Tidy(w) && OnTrack(w, start) && OneAtATime(w, e)
    ensures Tidy(Next(w, e)) && OnTrack(Next(w, e), start)
  {
    hide Tidy, OnTrack, OneAtATime;
    match e
    case Send(msgs) => SendKeepsTidy(w, msgs); SendKeepsTrack(w, msgs, start);
    case Begin(r, v) => BeginKeepsTidy(w, r, v); SameTrack(w, Next(w, e), start);
    case Attempt(r) => RelayGone(w, Next(w, e), r); SameTrack(w, Next(w, e), start);
    case Land(id) => LandKeepsTidy(w, id, start);
    case Acknowledge(r) => AcknowledgeKeepsTidy(w, r); SameTrack(w, Next(w, e), start);
    case Stop(r) => RelayGone(w, Next(w, e), r); SameTrack(w, Next(w, e), start);
    case Finish(r) => RelayGone(w, Next(w, e), r); SameTrack(w, Next(w, e), start);
    case Done(upTo) => DoneKeepsTidy(w, upTo); SameTrack(w, Next(w, e), start);
  }

  lemma {:induction false} SerialStaysOnTrack(events: seq<Event<Msg>>, start: Mirrored)
    requires Serial(events)
    ensures Tidy(Run(events)) && OnTrack(Run(events), start)
  {
    if events != [] {
      var init := events[..|events| - 1];
      forall k | 0 <= k < |init| ensures OneAtATime(Run(init[..k]), init[k]) {
        assert init[..k] == events[..k];
      }
      SerialStaysOnTrack(init, start);
      AlwaysSafe(init);
      SerialStep(Run(init), events[|events| - 1], start);
    }
  }

  /** Main result. With one relay at a time, whatever crashes and however often rows are
      delivered again, site.db's copy and the group's settings stay coherent. */
  lemma MirrorStaysCoherent(events: seq<Event<Msg>>, start: Mirrored)
    requires Serial(events)
    ensures Coherent(Run(events), start)
  {
    SerialStaysOnTrack(events, start);
    OnTrackIsCoherent(Run(events), start);
  }

  /** Without that discipline, exactly when one delivery keeps the copy right: when a MirrorGroup
      still waits behind it, or it is not a MirrorGroup, or its values are the settings. */
  lemma LandingKeepsCoherenceIff(w: MirrorNet, id: nat, start: Mirrored)
    requires Coherent(w, start)
    requires id in w.attempts && 1 <= id <= |w.sent|
    ensures var msg := w.sent[id - 1].msg;
            Coherent(Next(w, Land(id)), start) <==>
            (HasMirror(w.outbox) || !msg.MirrorGroup? || msg.values == LastMirror(w.sent, start))
  {
    var w' := Next(w, Land(id));
    assert w'.landed[..|w'.landed| - 1] == w.landed;
    CoherentMeans(w, start);
    CoherentMeans(w', start);
  }

  /** What is left of the outbox after a clear, however late it commits. */
  lemma ClearIsSuffix(w: MirrorNet, upTo: nat) returns (k: nat)
    requires Safe(w)
    ensures k <= |w.sent| && Clear(w.outbox, upTo) == w.sent[k..]
  {
    var gone: nat :| gone <= Delivered(w) && Stretch(w.outbox, w.sent, gone) && gone + |w.outbox| == |w.sent|;
    ClearStretch(w.outbox, w.sent, gone, upTo);
    k := gone + if upTo <= gone then 0 else Min(upTo - gone, |w.outbox|);
    assert w.outbox[k - gone..] == w.sent[k..];
  }

  /** An OutboxDone, too, keeps the copy right exactly when a MirrorGroup still waits behind what it
      clears, or the last one delivered gave the settings as they are. */
  lemma ClearingKeepsCoherenceIff(w: MirrorNet, upTo: nat, start: Mirrored)
    requires Safe(w) && upTo in w.dones
    ensures Coherent(Next(w, Done(upTo)), start) <==>
            HasMirror(Clear(w.outbox, upTo)) || LastMirror(w.landed, start) == LastMirror(w.sent, start)
  {
    var k := ClearIsSuffix(w, upTo);
    hide Safe;
    SuffixDecides(w.sent, k, start);
    MirrorCases(w.sent[k..], LastMirror(w.landed, start));
  }

  /** What a delivery or a clear must meet to keep the copy right; other steps may be anything. */
  predicate KeepsCopy(w: MirrorNet, e: Event<Msg>, start: Mirrored) {
    match e
    case Land(id) =>
      id in w.attempts && 1 <= id <= |w.sent| && w.sent[id - 1].msg.MirrorGroup? ==>
        HasMirror(w.outbox) || w.sent[id - 1].msg.values == LastMirror(w.sent, start)
    case Done(upTo) =>
      upTo in w.dones ==> HasMirror(Clear(w.outbox, upTo)) || LastMirror(w.landed, start) == LastMirror(w.sent, start)
    case _ => true
  }

  lemma SendKeepsCoherent(w: MirrorNet, msgs: seq<(LogId, Msg)>, start: Mirrored)
    requires Coherent(w, start)
    ensures Coherent(Next(w, Send(msgs)), start)
  {
    var rows := Numbered(msgs, |w.sent|);
    LastMirrorConcat(w.outbox, rows, LastMirror(w.landed, start));
    LastMirrorConcat(w.sent, rows, start);
  }

  lemma SameCopy(w: MirrorNet, w': MirrorNet, start: Mirrored)
    requires w'.sent == w.sent && w'.outbox == w.outbox && w'.landed == w.landed
    ensures Coherent(w', start) <==> Coherent(w, start)
  {
  }

  lemma StepCoherentIff(w: MirrorNet, e: Event<Msg>, start: Mirrored)
    requires Safe(w) && Coherent(w, start)
    ensures Coherent(Next(w, e), start) <==> KeepsCopy(w, e, start)
  {
    hide Safe, Coherent;
    match e
    case Send(msgs) => SendKeepsCoherent(w, msgs, start);
    case Land(id) =>
      if id in w.attempts && 1 <= id <= |w.sent| { LandingKeepsCoherenceIff(w, id, start); }
    case Done(upTo) =>
      if upTo in w.dones { ClearingKeepsCoherenceIff(w, upTo, start); }
    case _ => SameCopy(w, Next(w, e), start);
  }

  ghost predicate EveryStateCoherent(events: seq<Event<Msg>>, start: Mirrored) {
    forall n | 0 <= n <= |events| :: Coherent(Run(events[..n]), start)
  }

  ghost predicate EveryStepKeeps(events: seq<Event<Msg>>, start: Mirrored) {
    forall k | 0 <= k < |events| :: KeepsCopy(Run(events[..k]), events[k], start)
  }

  lemma EveryStateSnoc(events: seq<Event<Msg>>, e: Event<Msg>, start: Mirrored)
    ensures EveryStateCoherent(events + [e], start) <==>
            EveryStateCoherent(events, start) && Coherent(Run(events + [e]), start)
    ensures EveryStateCoherent(events, start) ==> Coherent(Run(events), start)
  {
    hide Coherent, Run;
    var more := events + [e];
    assert more[..|more|] == more && events[..|events|] == events;
    assert forall n | 0 <= n <= |events| :: more[..n] == events[..n];
  }

  lemma EveryStepSnoc(events: seq<Event<Msg>>, e: Event<Msg>, start: Mirrored)
    ensures EveryStepKeeps(events + [e], start) <==> EveryStepKeeps(events, start) && KeepsCopy(Run(events), e, start)
  {
    hide KeepsCopy, Run;
    var more := events + [e];
    assert more[|events|] == e && more[..|events|] == events;
    assert forall n | 0 <= n < |events| :: more[..n] == events[..n] && more[n] == events[n];
  }

  /** Main result. Over any run, with any number of relays, lagging copies, repeats and late clears:
      site.db's copy and the settings are coherent in every state exactly when each delivery and each
      clear meets its condition. */
  lemma {:induction false} AlwaysCoherentIff(events: seq<Event<Msg>>, start: Mirrored)
    ensures EveryStateCoherent(events, start) <==> EveryStepKeeps(events, start)
  {
    if events == [] {
      StartIsCoherent(start);
    } else {
      hide Coherent, KeepsCopy, Safe, Next, EveryStateCoherent, EveryStepKeeps;
      var init, last := events[..|events| - 1], events[|events| - 1];
      assert events == init + [last];
      AlwaysCoherentIff(init, start);
      EveryStateSnoc(init, last, start);
      EveryStepSnoc(init, last, start);
      RunSnoc(init, last);
      AlwaysSafe(init);
      if EveryStateCoherent(init, start) { StepCoherentIff(Run(init), last, start); }
    }
  }

  lemma StartIsCoherent(start: Mirrored)
    ensures Coherent(Run([]), start)
  {
  }

  lemma RunSnoc(events: seq<Event<Msg>>, e: Event<Msg>)
    ensures Run(events + [e]) == Next(Run(events), e)
  {
  }

  lemma SendOne(w: MirrorNet, m: Msg)
    ensures var row := Row(|w.sent| + 1, SITE, m);
            Next(w, Send([(SITE, m)])) ==
            w.(sent := w.sent + [row], outbox := w.outbox + [row], versions := w.versions + [w.outbox + [row]])
  {
    assert Numbered([(SITE, m)], |w.sent|) == [Row(|w.sent| + 1, SITE, m)];
  }

  /** A relay delivers the next row of its batch, undisturbed. */
  lemma DeliverRow(events: seq<Event<Msg>>, r: nat) returns (more: seq<Event<Msg>>)
    requires var w := Run(events);
             r in w.relays && w.relays[r].next < |w.relays[r].batch| && w.relays[r].batch[w.relays[r].next] in w.sent
    requires IdsInOrder(Run(events).sent)
    ensures var w := Run(events); var x := w.relays[r]; var row := x.batch[x.next];
            Run(more) == w.(attempts := w.attempts + {row.id}, landed := w.landed + [row],
                            relays := w.relays[r := x.(next := x.next + 1)])
  {
    var id := Run(events).relays[r].batch[Run(events).relays[r].next].id;
    more := events + [Attempt(r)];
    RunSnoc(events, Attempt(r));
    RunSnoc(more, Land(id));
    more := more + [Land(id)];
    RunSnoc(more, Acknowledge(r));
    more := more + [Acknowledge(r)];
  }

  /** Two changes of the settings, waiting in the outbox. */
  lemma SendTwo(m1: Mirrored, m2: Mirrored) returns (events: seq<Event<Msg>>)
    ensures var a, b := Row(1, SITE, MirrorGroup(m1)), Row(2, SITE, MirrorGroup(m2));
            Run(events) == Net([a, b], [a, b], [[], [a], [a, b]], map[], {}, [], {})
  {
    var a, b := Row(1, SITE, MirrorGroup(m1)), Row(2, SITE, MirrorGroup(m2));
    SendOne(Start(), MirrorGroup(m1));
    assert [] + [a] == [a];
    var first: seq<Event<Msg>> := [Send([(SITE, MirrorGroup(m1))])];
    assert first[..0] == [];
    assert Run(first) == Net([a], [a], [[], [a]], map[], {}, [], {});
    SendOne(Run(first), MirrorGroup(m2));
    assert [a] + [b] == [a, b] && [[], [a]] + [[a, b]] == [[], [a], [a, b]];
    RunSnoc(first, Send([(SITE, MirrorGroup(m2))]));
    events := first + [Send([(SITE, MirrorGroup(m2))])];
  }

  /** The two changes, read as one batch, and the first delivered. */
  lemma LandOne(m1: Mirrored, m2: Mirrored) returns (events: seq<Event<Msg>>)
    ensures var a, b := Row(1, SITE, MirrorGroup(m1)), Row(2, SITE, MirrorGroup(m2));
            Run(events) == Net([a, b], [a, b], [[], [a], [a, b]], map[0 := Relay([a, b], 1)], {1}, [a], {})
  {
    var a, b := Row(1, SITE, MirrorGroup(m1)), Row(2, SITE, MirrorGroup(m2));
    var two := SendTwo(m1, m2);
    assert Oldest([a, b], BATCH) == [a, b];
    RunSnoc(two, Begin(0, 2));
    var begun := two + [Begin(0, 2)];
    assert Run(begun) == Run(two).(relays := map[0 := Relay([a, b], 0)]);
    events := DeliverRow(begun, 0);
    assert map[0 := Relay([a, b], 0)][0 := Relay([a, b], 1)] == map[0 := Relay([a, b], 1)];
    assert [] + [a] == [a] && {} + {1} == {1};
  }

  /** ... and then the second. */
  lemma LandTwo(m1: Mirrored, m2: Mirrored) returns (events: seq<Event<Msg>>)
    ensures var a, b := Row(1, SITE, MirrorGroup(m1)), Row(2, SITE, MirrorGroup(m2));
            Run(events) == Net([a, b], [a, b], [[], [a], [a, b]], map[0 := Relay([a, b], 2)], {1, 2}, [a, b], {})
  {
    var a, b := Row(1, SITE, MirrorGroup(m1)), Row(2, SITE, MirrorGroup(m2));
    var one := LandOne(m1, m2);
    events := DeliverRow(one, 0);
    assert map[0 := Relay([a, b], 1)][0 := Relay([a, b], 2)] == map[0 := Relay([a, b], 2)];
    assert {1} + {2} == {1, 2} && [a] + [b] == [a, b];
  }

  /** ... and then cleared. */
  lemma DeliverTwo(m1: Mirrored, m2: Mirrored) returns (events: seq<Event<Msg>>)
    ensures var a, b := Row(1, SITE, MirrorGroup(m1)), Row(2, SITE, MirrorGroup(m2));
            Run(events) == Net([a, b], [], [[], [a], [a, b], []], map[], {1, 2}, [a, b], {2})
  {
    var a, b := Row(1, SITE, MirrorGroup(m1)), Row(2, SITE, MirrorGroup(m2));
    var finished := LandedTwo(m1, m2);
    RunSnoc(finished, Done(2));
    assert Clear([a, b], 2) == Clear([b], 2) == [];
    events := finished + [Done(2)];
  }

  /** The claim that a late delivery "writes the same thing" is false: an older MirrorGroup that
      arrives after a newer one was delivered and cleared leaves site.db with the old values,
      with nothing left in the outbox to put them right. */
  lemma LateDeliveryLeavesSiteStale(m1: Mirrored, m2: Mirrored, start: Mirrored) returns (events: seq<Event<Msg>>)
    requires m1 != m2
    ensures var w := Run(events);
            w.outbox == [] && LastMirror(w.landed, start) == m1 && LastMirror(w.sent, start) == m2 &&
            !Coherent(w, start)
  {
    events := DeliverTwo(m1, m2);
    var w := Run(events);
    assert w.landed[..1] == [w.sent[0]];
    RunSnoc(events, Land(1));
    events := events + [Land(1)];
    assert Run(events).landed == w.landed + [w.sent[0]];
  }

  /** So does a new leader whose copy of the outbox lags: it reads rows that were cleared. */
  lemma LaggingCopyLeavesSiteStale(m1: Mirrored, m2: Mirrored, start: Mirrored) returns (events: seq<Event<Msg>>)
    requires m1 != m2
    ensures var w := Run(events); w.outbox == [] && !Coherent(w, start)
    ensures exists k | 0 <= k < |events| ::
              events[k].Begin? && Run(events[..k]).relays == map[] && Run(events[..k]).outbox == []
  {
    events := DeliverTwo(m1, m2);
    var ready := events;
    var w := Run(ready);
    assert Oldest(w.versions[1], BATCH) == [w.sent[0]];
    RunSnoc(events, Begin(1, 1));
    events := events + [Begin(1, 1)];
    assert events[..|ready|] == ready && events[|ready|] == Begin(1, 1);
    RunSnoc(events, Attempt(1));
    events := events + [Attempt(1)];
    RunSnoc(events, Land(1));
    events := events + [Land(1)];
    assert events[..|ready|] == ready && events[|ready|] == Begin(1, 1);
    assert Run(events).landed == w.landed + [w.sent[0]];
  }

  /** And a clear that commits late, when a new relay has begun to deliver the same rows again, can
      leave site.db with the old values: the new relay reads the table as it is, while no other runs,
      delivers the first row once more, and stops when the rows are gone. */
  lemma LateClearLeavesSiteStale(m1: Mirrored, m2: Mirrored, start: Mirrored) returns (events: seq<Event<Msg>>)
    requires m1 != m2
    ensures var w := Run(events); w.outbox == [] && w.relays == map[] && !Coherent(w, start)
    ensures |events| >= 5 && events[|events| - 5..] == [Begin(1, 2), Attempt(1), Land(1), Done(2), Stop(1)]
    ensures var w := Run(events[..|events| - 5]); w.relays == map[] && |w.versions| == 3 && w.versions[2] == w.outbox
  {
    var ready := LandedTwo(m1, m2);
    var again := FirstRowAgain(m1, m2, ready);
    var a, b := Row(1, SITE, MirrorGroup(m1)), Row(2, SITE, MirrorGroup(m2));
    assert Clear([a, b], 2) == Clear([b], 2) == [];
    RunSnoc(again, Done(2));
    RunSnoc(again + [Done(2)], Stop(1));
    events := again + [Done(2)] + [Stop(1)];
    assert events == ready + [Begin(1, 2), Attempt(1), Land(1), Done(2), Stop(1)];
    assert [a, b, a][..2] == [a, b];
  }

  lemma FirstRowAgain(m1: Mirrored, m2: Mirrored, ready: seq<Event<Msg>>) returns (events: seq<Event<Msg>>)
    requires var a, b := Row(1, SITE, MirrorGroup(m1)), Row(2, SITE, MirrorGroup(m2));
             Run(ready) == Net([a, b], [a, b], [[], [a], [a, b]], map[], {1, 2}, [a, b], {2})
    ensures var a, b := Row(1, SITE, MirrorGroup(m1)), Row(2, SITE, MirrorGroup(m2));
            Run(events) == Net([a, b], [a, b], [[], [a], [a, b]], map[1 := Relay([a, b], 0)], {1, 2}, [a, b, a], {2})
    ensures events == ready + [Begin(1, 2), Attempt(1), Land(1)]
  {
    var a, b := Row(1, SITE, MirrorGroup(m1)), Row(2, SITE, MirrorGroup(m2));
    assert Oldest([a, b], BATCH) == [a, b];
    RunSnoc(ready, Begin(1, 2));
    var begun := ready + [Begin(1, 2)];
    assert Run(begun) == Net([a, b], [a, b], [[], [a], [a, b]], map[1 := Relay([a, b], 0)], {1, 2}, [a, b], {2});
    RunSnoc(begun, Attempt(1));
    var tried := begun + [Attempt(1)];
    assert {1, 2} + {1} == {1, 2};
    RunSnoc(tried, Land(1));
    events := tried + [Land(1)];
    assert [a, b] + [a] == [a, b, a];
  }

  /** Both rows delivered by a relay that has ended, and not cleared yet. */
  lemma LandedTwo(m1: Mirrored, m2: Mirrored) returns (events: seq<Event<Msg>>)
    ensures var a, b := Row(1, SITE, MirrorGroup(m1)), Row(2, SITE, MirrorGroup(m2));
            Run(events) == Net([a, b], [a, b], [[], [a], [a, b]], map[], {1, 2}, [a, b], {2})
  {
    var both := LandTwo(m1, m2);
    RunSnoc(both, Finish(0));
    events := both + [Finish(0)];
  }
}
