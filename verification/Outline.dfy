/**
 The FAQ's outline of topics, two levels deep, and the merging of topics (internal/cmd/faq.go).
 A merged topic's row stays and points at the topic it was merged into.
 */
module Outline {
  import opened Types

  type Id = nat

  /** parent 0 is the top level. */
  datatype Topic = Topic(parent: Id, title: string, merged: Option<Id>, locked: bool)

  type Topics = map<Id, Topic>

  /** Entries are filed under topics. */
  datatype Faq = Faq(topics: Topics, entries: map<Id, Id>)

  predicate Live(topics: Topics, t: Id) { t in topics && topics[t].merged.None? }

  // ---- The outline ----

  predicate Placed(topics: Topics, t: Id)
    requires t in topics
  {
    topics[t].merged.None? && topics[t].parent != 0 ==>
      Live(topics, topics[t].parent) && topics[topics[t].parent].parent == 0
  }

  /** A topic under another is under a live top-level one. */
  ghost predicate TwoLevels(topics: Topics) {
    0 !in topics && forall t {:trigger Placed(topics, t)} | t in topics :: Placed(topics, t)
  }

  function Kids(topics: Topics, t: Id): set<Id> {
    set k | k in topics && topics[k].parent == t && topics[k].merged.None?
  }

  ghost predicate EntriesLive(faq: Faq) {
    forall e <- faq.entries :: Live(faq.topics, faq.entries[e])
  }

  // ---- Chains of merges ----

  /** The topic n merges on from t. */
  function Hop(topics: Topics, t: Id, n: nat): Option<Id>
    decreases n
  {
    if t !in topics then None
    else if n == 0 then Some(t)
    else if topics[t].merged.None? then None
    else Hop(topics, topics[t].merged.value, n - 1)
  }

  /** Following merges n times from t ends at live topic r. */
  predicate EndsAt(topics: Topics, t: Id, n: nat, r: Id) {
    Hop(topics, t, n) == Some(r) && Live(topics, r)
  }

  /** Following merges from anywhere ends, at a live topic: there are no cycles. */
  ghost predicate Grounded(topics: Topics) {
    forall t | t in topics :: Ends(topics, t)
  }

  ghost predicate Ends(topics: Topics, t: Id) {
    exists n, r :: EndsAt(topics, t, n, r)
  }

  const LOOKUPS := 10

  /** liveTopic: follow merges, looking at most ten times. */
  method LiveTopic(topics: Topics, id: Id) returns (r: Option<Id>)
    ensures r == Lookup(topics, id, LOOKUPS)
  {
    var t := id;
    for i := 0 to LOOKUPS
      invariant Lookup(topics, t, LOOKUPS - i) == Lookup(topics, id, LOOKUPS)
    {
      if t !in topics {
        return None;
      }
      if topics[t].merged.None? {
        return Some(t);
      }
      t := topics[t].merged.value;
    }
    return Some(t);
  }

  function Lookup(topics: Topics, t: Id, n: nat): Option<Id>
    decreases n
  {
    if n == 0 then Some(t)
    else if t !in topics then None
    else if topics[t].merged.None? then Some(t)
    else Lookup(topics, topics[t].merged.value, n - 1)
  }

  /** Main result. Ten lookups find the live topic exactly when it is at most ten merges away;
      otherwise they stop at a topic that is merged itself. */
  lemma {:induction false} LookupFindsIff(topics: Topics, t: Id, k: nat, n: nat, r: Id)
    requires EndsAt(topics, t, n, r)
    ensures Lookup(topics, t, k) == Some(r) <==> n <= k
    ensures n > k ==>
              Lookup(topics, t, k) == Hop(topics, t, k) && Hop(topics, t, k).Some? &&
              !Live(topics, Hop(topics, t, k).value)
    decreases k
  {
    if k == 0 {
      if n > 0 { AheadOfEnd(topics, t, n, r); }
    } else if n > 0 {
      LookupFindsIff(topics, topics[t].merged.value, k - 1, n - 1, r);
    }
  }

  lemma AheadOfEnd(topics: Topics, t: Id, n: nat, r: Id)
    requires EndsAt(topics, t, n, r) && n > 0
    ensures t in topics && topics[t].merged.Some? && t != r
  {
  }

  // ---- The commands ----

  function InsertTopic(topics: Topics, id: Id, parent: Id, title: string, locked: bool): Option<Topics> {
    if parent != 0 && (parent !in topics || topics[parent].parent != 0 || topics[parent].merged.Some?) then None
    else if id in topics then None
    else Some(topics[id := Topic(parent, title, None, locked)])
  }

  const MAX_TOPIC := 80

  predicate TitleFine(title: string) { title != "" && |title| <= MAX_TOPIC }

  function EditTopic(topics: Topics, id: Id, title: string, parent: Id): Option<Topics> {
    if !TitleFine(title) || !Live(topics, id) then None
    else if parent != 0 && (!Live(topics, parent) || topics[parent].parent != 0
                           || Kids(topics, id) != {} || parent == id) then None
    else Some(topics[id := topics[id].(title := title, parent := parent, locked := true)])
  }

  datatype Merge = Merge(keep: Id, drop: Id)

  /** Whether the weekly pass goes through with a merge. */
  predicate Performed(topics: Topics, m: Merge) {
    && m.keep != m.drop && Live(topics, m.drop) && !topics[m.drop].locked
    && Lookup(topics, m.keep, LOOKUPS).Some? && Lookup(topics, m.keep, LOOKUPS) != Some(m.drop)
    && var kp := if m.keep in topics then topics[m.keep].parent else 0;
       kp != m.drop && !(Kids(topics, m.drop) != {} && kp != 0)
  }

  function MergeTopics(topics: Topics, m: Merge): Topics {
    map t | t in topics ::
      var row := if topics[t].parent == m.drop && topics[t].merged.None? then topics[t].(parent := m.keep)
                 else topics[t];
      if t == m.drop then row.(merged := Some(m.keep)) else row
  }

  function MergeOne(faq: Faq, m: Merge): Faq {
    if !Performed(faq.topics, m) then faq else
      Faq(MergeTopics(faq.topics, m),
          map e | e in faq.entries :: if faq.entries[e] == m.drop then m.keep else faq.entries[e])
  }

  function MergeAll(faq: Faq, merges: seq<Merge>): Faq {
    if merges == [] then faq else MergeOne(MergeAll(faq, merges[..|merges| - 1]), merges[|merges| - 1])
  }

  datatype Rename = Rename(id: Id, title: string)

  /** The weekly pass renames what no mod has named. */
  function RenameOne(topics: Topics, r: Rename): Topics {
    if !TitleFine(r.title) || !Live(topics, r.id) || topics[r.id].locked then topics
    else topics[r.id := topics[r.id].(title := r.title)]
  }

  function RenameAll(topics: Topics, renames: seq<Rename>): Topics {
    if renames == [] then topics else RenameOne(RenameAll(topics, renames[..|renames| - 1]), renames[|renames| - 1])
  }

  // ---- What each command does ----

  predicate TopLevel(topics: Topics, t: Id) { Live(topics, t) && topics[t].parent == 0 }

  /** A new topic is refused if its id is taken or it would hang on what is no live top-level topic. */
  lemma InsertIff(topics: Topics, id: Id, parent: Id, title: string, locked: bool)
    ensures InsertTopic(topics, id, parent, title, locked).Some? <==>
            id !in topics && (parent == 0 || TopLevel(topics, parent))
    ensures InsertTopic(topics, id, parent, title, locked).Some? ==>
              InsertTopic(topics, id, parent, title, locked).value == topics[id := Topic(parent, title, None, locked)]
  {
  }

  /** The topic is there, not merged, with this title, and locked. */
  predicate Stands(topics: Topics, t: Id, title: string) {
    t in topics && topics[t].merged.None? && topics[t].title == title && topics[t].locked
  }

  /** A mod's edit gives a live topic its title and its place, and locks it: it may go under a live top-level
      topic other than itself if it has no live topics under it. */
  lemma EditIff(topics: Topics, id: Id, title: string, parent: Id)
    ensures EditTopic(topics, id, title, parent).Some? <==>
            && title != "" && |title| <= 80 && Live(topics, id)
            && (parent == 0 || (TopLevel(topics, parent) && parent != id &&
                                forall k <- topics :: topics[k].parent == id ==> topics[k].merged.Some?))
    ensures EditTopic(topics, id, title, parent).Some? ==>
              EditTopic(topics, id, title, parent).value == topics[id := Topic(parent, title, None, true)] &&
              Stands(EditTopic(topics, id, title, parent).value, id, title)
  {
    if k :| k in topics && topics[k].parent == id && topics[k].merged.None? { assert k in Kids(topics, id); }
  }

  /** A merge that is gone through with marks the topic dropped, moves its live children and its entries to the
      one kept, and touches nothing else. */
  lemma MergeIs(faq: Faq, m: Merge)
    requires Performed(faq.topics, m)
    ensures var r, topics := MergeOne(faq, m), faq.topics;
            && m.drop in topics && m.keep in topics && r.topics.Keys == topics.Keys
            && r.entries.Keys == faq.entries.Keys
            && r.topics[m.drop].merged == Some(m.keep) && r.topics[m.drop].title == topics[m.drop].title
            && (forall t <- topics | t != m.drop :: r.topics[t] ==
                  if topics[t].merged.None? && topics[t].parent == m.drop then topics[t].(parent := m.keep)
                  else topics[t])
            && forall e <- faq.entries :: r.entries[e] == if faq.entries[e] == m.drop then m.keep else faq.entries[e]
  {
  }

  /** Main result. What a mod named stays: however many weekly passes follow, the topic is neither merged nor
      renamed. */
  lemma {:induction false} ModsChoiceStands(faq: Faq, events: seq<Event>, id: Id, title: string)
    requires Stands(faq.topics, id, title) && forall e <- events :: e.Fold? || e.Call? || e.Create? || e.File?
    ensures Stands(State(faq, events).topics, id, title)
  {
    if events != [] {
      var init, e := events[..|events| - 1], events[|events| - 1];
      ModsChoiceStands(faq, init, id, title);
      assert e in events;
    }
  }

  /** And the rest is named as the pass says. */
  lemma RenameIff(topics: Topics, r: Rename)
    requires r.id in topics
    ensures RenameOne(topics, r) == topics[r.id := topics[r.id].(title :=
              if r.title != "" && |r.title| <= 80 && Live(topics, r.id) && !topics[r.id].locked then r.title
              else topics[r.id].title)]
  {
    assert topics == topics[r.id := topics[r.id]];
  }

  // ---- Creating and editing keep the outline ----

  lemma InsertKeepsOutline(topics: Topics, id: Id, parent: Id, title: string, locked: bool)
    requires TwoLevels(topics) && Grounded(topics) && id != 0 && InsertTopic(topics, id, parent, title, locked).Some?
    ensures TwoLevels(InsertTopic(topics, id, parent, title, locked).value)
    ensures Grounded(InsertTopic(topics, id, parent, title, locked).value)
  {
    var topics' := topics[id := Topic(parent, title, None, locked)];
    forall t | t in topics' ensures Placed(topics', t) {
      if t != id { assert Placed(topics, t); }
    }
    InsertGrounded(topics, id, Topic(parent, title, None, locked));
  }

  lemma InsertGrounded(topics: Topics, id: Id, row: Topic)
    requires Grounded(topics) && id !in topics && row.merged.None?
    ensures Grounded(topics[id := row])
  {
    var topics' := topics[id := row];
    forall t | t in topics' ensures Ends(topics', t) {
      if t == id {
        assert EndsAt(topics', id, 0, id);
      } else {
        assert Ends(topics, t);
        var n, r :| EndsAt(topics, t, n, r);
        SameHops(topics, topics', t, n, r);
      }
    }
  }

  /** Merges of the old topics are where they were. */
  lemma {:induction false} SameHops(topics: Topics, topics': Topics, t: Id, n: nat, r: Id)
    requires EndsAt(topics, t, n, r)
    requires forall x <- topics :: x in topics' && topics'[x].merged == topics[x].merged
    ensures EndsAt(topics', t, n, r)
    decreases n
  {
    if n > 0 {
      SameHops(topics, topics', topics[t].merged.value, n - 1, r);
    }
  }

  lemma SameMergesGrounded(topics: Topics, topics': Topics)
    requires Grounded(topics) && topics'.Keys == topics.Keys &&
             forall x <- topics :: topics'[x].merged == topics[x].merged
    ensures Grounded(topics')
  {
    forall t | t in topics' ensures Ends(topics', t) {
      assert Ends(topics, t);
      var n, r :| EndsAt(topics, t, n, r);
      SameHops(topics, topics', t, n, r);
    }
  }

  /** A live topic without live children may be put under any live top-level topic but itself. */
  lemma MovedIsPlaced(topics: Topics, id: Id, row: Topic)
    requires TwoLevels(topics) && Live(topics, id) && row.merged.None?
    requires row.parent != 0 ==>
               Live(topics, row.parent) && topics[row.parent].parent == 0 && Kids(topics, id) == {} && row.parent != id
    ensures TwoLevels(topics[id := row])
  {
    var topics' := topics[id := row];
    forall t | t in topics' ensures Placed(topics', t) {
      assert t != id ==> Placed(topics, t);
      if t != id && topics[t].merged.None? && topics[t].parent == id { assert t in Kids(topics, id); }
    }
  }

  lemma RenameKeepsOutline(topics: Topics, r: Rename)
    requires TwoLevels(topics) && Grounded(topics)
    ensures TwoLevels(RenameOne(topics, r)) && Grounded(RenameOne(topics, r))
  {
    hide TwoLevels, Grounded;
    if TitleFine(r.title) && Live(topics, r.id) && !topics[r.id].locked {
      SameMergesGrounded(topics, RenameOne(topics, r));
      RenamedPlaced(topics, r.id, r.title);
    }
  }

  lemma RenamedPlaced(topics: Topics, id: Id, title: string)
    requires TwoLevels(topics) && Live(topics, id)
    ensures TwoLevels(topics[id := topics[id].(title := title)])
  {
    var topics' := topics[id := topics[id].(title := title)];
    forall t | t in topics' ensures Placed(topics', t) {
      assert Placed(topics, t);
    }
  }

  lemma EditKeepsOutline(topics: Topics, id: Id, title: string, parent: Id)
    requires TwoLevels(topics) && Grounded(topics) && EditTopic(topics, id, title, parent).Some?
    ensures TwoLevels(EditTopic(topics, id, title, parent).value) &&
            Grounded(EditTopic(topics, id, title, parent).value)
  {
    hide TwoLevels, Grounded;
    var row := topics[id].(title := title, parent := parent, locked := true);
    MovedIsPlaced(topics, id, row);
    SameMergesGrounded(topics, topics[id := row]);
  }

  // ---- When a merge keeps it ----

  /** Main result. The weekly pass files the dropped topic's children under the topic it was told to
      keep, not under the live topic that one was merged into. So the outline stays two levels of
      live topics exactly when that topic is live, or there were no children. */
  lemma MergeKeepsTwoLevelsIff(topics: Topics, m: Merge)
    requires TwoLevels(topics) && Performed(topics, m)
    ensures TwoLevels(MergeTopics(topics, m)) <==> Live(topics, m.keep) || Kids(topics, m.drop) == {}
  {
    var topics' := MergeTopics(topics, m);
    if Live(topics, m.keep) || Kids(topics, m.drop) == {} {
      forall t | t in topics' ensures Placed(topics', t) {
        assert Placed(topics, t);
        if topics[t].merged.None? && topics[t].parent == m.drop { assert t in Kids(topics, m.drop); }
      }
    } else {
      var k :| k in Kids(topics, m.drop);
      assert Placed(topics, k);
      assert !Placed(topics', k);
    }
  }

  /** Likewise the entries: they end up under live topics exactly when the topic kept is live, or the
      one dropped had none. */
  lemma MergeKeepsEntriesLiveIff(faq: Faq, m: Merge)
    requires EntriesLive(faq) && Performed(faq.topics, m)
    ensures EntriesLive(MergeOne(faq, m)) <==>
            Live(faq.topics, m.keep) || forall e <- faq.entries :: faq.entries[e] != m.drop
  {
    var faq' := MergeOne(faq, m);
    if e :| e in faq.entries && faq.entries[e] == m.drop {
      assert faq'.entries[e] == m.keep;
    }
  }

  lemma {:induction false} ChainAfterMerge(topics: Topics, m: Merge, t: Id, n: nat, r: Id, k: nat, root: Id)
    requires Live(topics, m.drop) && EndsAt(topics, t, n, r) && EndsAt(topics, m.keep, k, root) && root != m.drop
    ensures EndsAt(MergeTopics(topics, m), t, if r == m.drop then n + 1 + k else n, if r == m.drop then root else r)
    decreases if r == m.drop then 1 else 0, n
  {
    var topics' := MergeTopics(topics, m);
    if n > 0 {
      ChainAfterMerge(topics, m, topics[t].merged.value, n - 1, r, k, root);
    } else if t == m.drop {
      ChainAfterMerge(topics, m, m.keep, k, root, k, root);
    }
  }

  lemma {:induction false} HopAfterMerge(topics: Topics, m: Merge, t: Id, n: nat)
    requires Live(topics, m.drop) && Hop(topics, t, n).Some?
    ensures Hop(MergeTopics(topics, m), t, n) == Hop(topics, t, n)
    decreases n
  {
    if n > 0 {
      HopAfterMerge(topics, m, topics[t].merged.value, n - 1);
    }
  }

  lemma {:induction false} HopOn(topics: Topics, t: Id, n: nat, k: nat)
    requires Hop(topics, t, n).Some?
    ensures Hop(topics, t, n + k) == Hop(topics, Hop(topics, t, n).value, k)
    decreases n
  {
    if n > 0 {
      HopOn(topics, topics[t].merged.value, n - 1, k);
    }
  }

  /** On a cycle, no number of merges leads to a live topic. */
  lemma {:induction false} CycleNeverEnds(topics: Topics, t: Id, c: nat, n: nat, r: Id)
    requires c > 0 && Hop(topics, t, c) == Some(t)
    ensures !EndsAt(topics, t, n, r)
    decreases n
  {
    if n >= c {
      HopOn(topics, t, c, n - c);
      CycleNeverEnds(topics, t, c, n - c, r);
    } else if EndsAt(topics, t, n, r) {
      HopOn(topics, t, n, c - n);
    }
  }

  /** Main result. A merge keeps every chain ending at a live topic exactly when the topic kept does
      not itself lead to the one dropped. */
  lemma MergeStaysGroundedIff(topics: Topics, m: Merge, k: nat, root: Id)
    requires Grounded(topics) && Live(topics, m.drop) && m.keep in topics && EndsAt(topics, m.keep, k, root)
    ensures Grounded(MergeTopics(topics, m)) <==> root != m.drop
  {
    var topics' := MergeTopics(topics, m);
    if root != m.drop {
      forall t | t in topics' ensures Ends(topics', t) {
        assert Ends(topics, t);
        var n, r :| EndsAt(topics, t, n, r);
        ChainAfterMerge(topics, m, t, n, r, k, root);
      }
    } else {
      HopAfterMerge(topics, m, m.keep, k);
      assert Hop(topics', m.drop, 1) == Some(m.keep);
      HopOn(topics', m.keep, k, 1);
      forall n: nat, r ensures !EndsAt(topics', m.keep, n, r) {
        CycleNeverEnds(topics', m.keep, k + 1, n, r);
      }
      assert !Ends(topics', m.keep);
    }
  }

  /** So the check in the code, that ten lookups from the topic kept do not find the one dropped, is
      exact as long as chains have at most ten merges ... */
  lemma ShortChainsStayGrounded(topics: Topics, m: Merge, k: nat, root: Id)
    requires Grounded(topics) && Performed(topics, m) && EndsAt(topics, m.keep, k, root) && k <= LOOKUPS
    ensures Grounded(MergeTopics(topics, m))
  {
    LookupFindsIff(topics, m.keep, LOOKUPS, k, root);
    MergeStaysGroundedIff(topics, m, k, root);
  }

  /** ... and a longer one that leads to the topic dropped gets past it, and becomes a cycle. */
  lemma LongChainsBecomeCycles(topics: Topics, m: Merge, k: nat)
    requires Grounded(topics) && EndsAt(topics, m.keep, k, m.drop) && k > LOOKUPS
    requires !topics[m.drop].locked && topics[m.keep].parent == 0 && m.drop != 0
    ensures Performed(topics, m) && !Grounded(MergeTopics(topics, m))
  {
    LookupFindsIff(topics, m.keep, LOOKUPS, k, m.drop);
    MergeStaysGroundedIff(topics, m, k, m.drop);
    AheadOfEnd(topics, m.keep, k, m.drop);
  }

  // ---- Every run ----

  datatype Event =
    | Create(id: Id, parent: Id, title: string, locked: bool)
    | Change(id: Id, title: string, parent: Id)
    | File(entry: Id, topic: Id)
    | Fold(merge: Merge)          // one merge of a weekly pass
    | Call(rename: Rename)        // one renaming of it

  function Next(faq: Faq, e: Event): Faq {
    match e
    case Create(id, parent, title, locked) =>
      var r := InsertTopic(faq.topics, id, parent, title, locked); if r.Some? then faq.(topics := r.value) else faq
    case Change(id, title, parent) =>
      var r := EditTopic(faq.topics, id, title, parent); if r.Some? then faq.(topics := r.value) else faq
    case File(entry, topic) =>
      var r := Lookup(faq.topics, topic, LOOKUPS); if r.Some? then faq.(entries := faq.entries[entry := r.value]) else faq
    case Fold(m) => MergeOne(faq, m)
    case Call(r) => faq.(topics := RenameOne(faq.topics, r))
  }

  function State(faq: Faq, events: seq<Event>): Faq {
    if events == [] then faq else Next(State(faq, events[..|events| - 1]), events[|events| - 1])
  }

  /** Two levels of live topics, every entry under a live one, every chain of merges ending. */
  ghost predicate Tidied(faq: Faq) {
    TwoLevels(faq.topics) && EntriesLive(faq) && Grounded(faq.topics)
  }

  ghost predicate Leads(topics: Topics, t: Id, r: Id) {
    exists n :: EndsAt(topics, t, n, r)
  }

  /** A merge that is gone through with keeps a live topic, unless nothing moves; and the topic kept
      does not lead to the one dropped. An entry is filed where ten lookups find a live topic. */
  ghost predicate Harmless(faq: Faq, e: Event) {
    match e
    case Create(id, parent, title, locked) => InsertTopic(faq.topics, id, parent, title, locked).Some? ==> id != 0
    case Change(_, _, _) => true
    case File(_, topic) =>
      Lookup(faq.topics, topic, LOOKUPS).Some? ==> Live(faq.topics, Lookup(faq.topics, topic, LOOKUPS).value)
    case Fold(m) => Performed(faq.topics, m) ==> MovesUnderLive(faq, m) && !Leads(faq.topics, m.keep, m.drop)
    case Call(_) => true
  }

  ghost predicate MovesUnderLive(faq: Faq, m: Merge) {
    Live(faq.topics, m.keep) || (Kids(faq.topics, m.drop) == {} && forall e <- faq.entries :: faq.entries[e] != m.drop)
  }

  lemma {:induction false} OneEnd(topics: Topics, t: Id, n: nat, r: Id, m: nat, s: Id)
    requires EndsAt(topics, t, n, r) && EndsAt(topics, t, m, s)
    ensures n == m && r == s
    decreases n
  {
    if n > 0 && m > 0 {
      OneEnd(topics, topics[t].merged.value, n - 1, r, m - 1, s);
    }
  }

  lemma FoldGroundedIff(topics: Topics, m: Merge)
    requires Grounded(topics) && Performed(topics, m)
    ensures m.keep in topics && (Grounded(MergeTopics(topics, m)) <==> !Leads(topics, m.keep, m.drop))
  {
    assert Ends(topics, m.keep);
    var k, root :| EndsAt(topics, m.keep, k, root);
    MergeStaysGroundedIff(topics, m, k, root);
    if Leads(topics, m.keep, m.drop) {
      var n :| EndsAt(topics, m.keep, n, m.drop);
      OneEnd(topics, m.keep, k, root, n, m.drop);
    }
  }

  lemma FoldTidiedIff(faq: Faq, m: Merge)
    requires Tidied(faq)
    ensures Tidied(MergeOne(faq, m)) <==> Harmless(faq, Fold(m))
  {
    hide TwoLevels, EntriesLive, Grounded, MergeTopics, Leads;
    if Performed(faq.topics, m) {
      FoldGroundedIff(faq.topics, m);
      MergeKeepsTwoLevelsIff(faq.topics, m);
      MergeKeepsEntriesLiveIff(faq, m);
    }
  }

  lemma CreateTidied(faq: Faq, id: Id, parent: Id, title: string, locked: bool)
    requires Tidied(faq) && InsertTopic(faq.topics, id, parent, title, locked).Some?
    ensures Tidied(faq.(topics := InsertTopic(faq.topics, id, parent, title, locked).value)) <==> id != 0
  {
    if id != 0 { InsertKeepsOutline(faq.topics, id, parent, title, locked); }
  }

  /** Main result. Any command keeps the outline exactly when it is harmless. */
  lemma StepTidiedIff(faq: Faq, e: Event)
    requires Tidied(faq)
    ensures Tidied(Next(faq, e)) <==> Harmless(faq, e)
  {
    match e
    case Create(id, parent, title, locked) =>
      if InsertTopic(faq.topics, id, parent, title, locked).Some? { CreateTidied(faq, id, parent, title, locked); }
    case Change(id, title, parent) =>
      if EditTopic(faq.topics, id, title, parent).Some? { EditKeepsOutline(faq.topics, id, title, parent); }
    case File(entry, topic) => FileTidiedIff(faq, entry, topic);
    case Fold(m) => FoldTidiedIff(faq, m);
    case Call(r) => RenameKeepsOutline(faq.topics, r);
  }

  lemma FileTidiedIff(faq: Faq, entry: Id, topic: Id)
    requires Tidied(faq)
    ensures Tidied(Next(faq, File(entry, topic))) <==> Harmless(faq, File(entry, topic))
  {
    hide TwoLevels, Grounded, Lookup;
    var r := Lookup(faq.topics, topic, LOOKUPS);
    if r.Some? { assert faq.entries[entry := r.value][entry] == r.value; }
  }

  /** A run, from an empty outline, whose commands are harmless when they come. */
  ghost predicate AllHarmless(events: seq<Event>) {
    forall k | 0 <= k < |events| :: Harmless(State(Faq(map[], map[]), events[..k]), events[k])
  }

  /** Main result. Every run of harmless commands, from an empty outline, leaves it two levels deep,
      with every entry under a live topic and every chain of merges ending. */
  lemma {:induction false} EveryOutlineIsTidied(events: seq<Event>)
    requires AllHarmless(events)
    ensures Tidied(State(Faq(map[], map[]), events))
  {
    hide Harmless, Next, Tidied;
    if events == [] {
      EmptyIsTidied();
    } else {
      var init := events[..|events| - 1];
      assert forall k | 0 <= k < |init| :: init[..k] == events[..k];
      EveryOutlineIsTidied(init);
      StepTidiedIff(State(Faq(map[], map[]), init), events[|events| - 1]);
    }
  }

  lemma EmptyIsTidied()
    ensures Tidied(Faq(map[], map[]))
  {
  }

  /** Chains of at most ten merges. */
  ghost predicate ShortChain(topics: Topics, t: Id) {
    forall n: nat, r: Id :: EndsAt(topics, t, n, r) ==> n <= LOOKUPS
  }

  /** Main result. Whatever else a run does to the outline, no merges ever go round in a circle as long
      as each that is gone through with keeps a topic at most ten merges from its live one. */
  lemma {:induction false} EveryChainEnds(events: seq<Event>)
    requires forall k | 0 <= k < |events| :: events[k].Fold? ==>
               ShortChain(State(Faq(map[], map[]), events[..k]).topics, events[k].merge.keep)
    ensures Grounded(State(Faq(map[], map[]), events).topics)
  {
    hide Next;
    if events != [] {
      var init := events[..|events| - 1];
      assert forall k | 0 <= k < |init| :: init[..k] == events[..k];
      EveryChainEnds(init);
      StepGrounded(State(Faq(map[], map[]), init), events[|events| - 1]);
    }
  }

  lemma StepGrounded(faq: Faq, e: Event)
    requires Grounded(faq.topics) && (e.Fold? ==> ShortChain(faq.topics, e.merge.keep))
    ensures Grounded(Next(faq, e).topics)
  {
    match e
    case Create(id, parent, title, locked) =>
      if InsertTopic(faq.topics, id, parent, title, locked).Some? {
        InsertGrounded(faq.topics, id, Topic(parent, title, None, locked));
      }
    case Change(id, title, parent) => SameMergesGrounded(faq.topics, Next(faq, e).topics);
    case File(_, _) =>
    case Fold(m) =>
      if Performed(faq.topics, m) {
        assert Ends(faq.topics, m.keep);
        var k, root :| EndsAt(faq.topics, m.keep, k, root);
        ShortChainsStayGrounded(faq.topics, m, k, root);
      }
    case Call(r) => SameMergesGrounded(faq.topics, Next(faq, e).topics);
  }

  // ---- A run that ends in a circle ----

  function Rungs(c: nat): (s: set<Id>)
    ensures forall i :: i in s <==> 1 <= i <= c
  {
    if c == 0 then {} else Rungs(c - 1) + {c}
  }

  /** c top-level topics, of which each of the first f was merged into the next. */
  function Ladder(c: nat, f: nat): Faq {
    Faq(map i | i in Rungs(c) :: Topic(0, "t", if i <= f then Some(i + 1) else None, false), map[])
  }

  /** The commands that build it. */
  function Building(c: nat, f: nat): seq<Event> {
    if f > 0 then Building(c, f - 1) + [Fold(Merge(f + 1, f))]
    else if c > 0 then Building(c - 1, 0) + [Create(c, 0, "t", false)]
    else []
  }

  lemma StateSnoc(faq: Faq, events: seq<Event>, e: Event)
    ensures State(faq, events + [e]) == Next(State(faq, events), e)
  {
    assert (events + [e])[..|events|] == events;
  }

  lemma {:induction false} LadderEnds(c: nat, f: nat, i: nat)
    requires 1 <= i <= f + 1 <= c
    ensures EndsAt(Ladder(c, f).topics, i, f + 1 - i, f + 1)
    decreases f + 1 - i
  {
    if i <= f { LadderEnds(c, f, i + 1); }
  }

  lemma CreateRung(c: nat)
    requires c > 0
    ensures Next(Ladder(c - 1, 0), Create(c, 0, "t", false)) == Ladder(c, 0) &&
            Harmless(Ladder(c - 1, 0), Create(c, 0, "t", false))
  {
  }

  lemma FoldRung(c: nat, f: nat)
    requires 0 < f < c
    ensures var e := Fold(Merge(f + 1, f)); Next(Ladder(c, f - 1), e) == Ladder(c, f) && Harmless(Ladder(c, f - 1), e)
  {
    var topics, keep, m := Ladder(c, f - 1).topics, f + 1, Merge(f + 1, f);
    assert EndsAt(topics, keep, 0, keep);
    assert Kids(topics, f) == {} && Performed(topics, m);
    if n: nat :| EndsAt(topics, keep, n, f) { OneEnd(topics, keep, 0, keep, n, f); }
    assert !Leads(topics, keep, f);
    assert MergeTopics(topics, m) == Ladder(c, f).topics;
  }

  lemma OneMoreRung(events: seq<Event>, e: Event)
    requires AllHarmless(events) && Harmless(State(Faq(map[], map[]), events), e)
    ensures State(Faq(map[], map[]), events + [e]) == Next(State(Faq(map[], map[]), events), e) &&
            AllHarmless(events + [e])
  {
    hide Harmless, Next;
    StateSnoc(Faq(map[], map[]), events, e);
    var more := events + [e];
    forall k | 0 <= k < |more| ensures Harmless(State(Faq(map[], map[]), more[..k]), more[k]) {
      if k < |events| {
        assert more[..k] == events[..k] && more[k] == events[k];
      } else {
        assert more[..k] == events && more[k] == e;
      }
    }
  }

  /** From an empty outline, harmless commands build it. */
  lemma {:induction false} BuildsLadder(c: nat, f: nat)
    requires f < c || c == f == 0
    ensures State(Faq(map[], map[]), Building(c, f)) == Ladder(c, f) && AllHarmless(Building(c, f))
    decreases c, f
  {
    hide Harmless, Next, AllHarmless;
    if f > 0 {
      BuildsLadder(c, f - 1);
      FoldRung(c, f);
      OneMoreRung(Building(c, f - 1), Fold(Merge(f + 1, f)));
    } else if c > 0 {
      BuildsLadder(c - 1, 0);
      CreateRung(c);
      OneMoreRung(Building(c - 1, 0), Create(c, 0, "t", false));
    } else {
      NoRungs();
    }
  }

  lemma NoRungs()
    ensures Building(0, 0) == [] && Ladder(0, 0) == Faq(map[], map[]) && AllHarmless([])
  {
    assert Ladder(0, 0).topics == map[];
  }

  /** Main result. From an empty outline, harmless commands build a chain of any number n > 10 of merges;
      then the weekly pass may be told to keep its first topic and drop its last, and goes through with
      it, and the merges go round in a circle. */
  lemma CircleFromScratch(n: nat)
    requires n > LOOKUPS
    ensures AllHarmless(Building(n + 1, n)) && Tidied(State(Faq(map[], map[]), Building(n + 1, n)))
    ensures Performed(State(Faq(map[], map[]), Building(n + 1, n)).topics, Merge(1, n + 1))
    ensures !Grounded(State(Faq(map[], map[]), Building(n + 1, n) + [Fold(Merge(1, n + 1))]).topics)
  {
    hide Ladder, Harmless, Tidied, Grounded, Building, State, Performed, MergeTopics, Next;
    BuildsLadder(n + 1, n);
    EveryOutlineIsTidied(Building(n + 1, n));
    StateSnoc(Faq(map[], map[]), Building(n + 1, n), Fold(Merge(1, n + 1)));
    LadderBends(n);
    FoldIs(Ladder(n + 1, n), Merge(1, n + 1));
  }

  lemma LadderBends(n: nat)
    requires n > LOOKUPS && Tidied(Ladder(n + 1, n))
    ensures var topics, m := Ladder(n + 1, n).topics, Merge(1, n + 1);
            Performed(topics, m) && !Grounded(MergeTopics(topics, m))
  {
    hide Ladder, Tidied, Grounded, EndsAt, Performed, MergeTopics;
    var topics, last := Ladder(n + 1, n).topics, n + 1;
    TidiedIsGrounded(Ladder(n + 1, n));
    LadderEnds(n + 1, n, 1);
    RungIs(n + 1, n, 1);
    RungIs(n + 1, n, last);
    LongChainsBecomeCycles(topics, Merge(1, last), n);
  }

  lemma RungIs(c: nat, f: nat, i: nat)
    requires 1 <= i <= c
    ensures var topics := Ladder(c, f).topics; i in topics && topics[i].parent == 0 && !topics[i].locked
  {
  }

  lemma FoldIs(faq: Faq, m: Merge)
    requires Performed(faq.topics, m)
    ensures Next(faq, Fold(m)).topics == MergeTopics(faq.topics, m)
  {
  }

  lemma TidiedIsGrounded(faq: Faq)
    requires Tidied(faq)
    ensures Grounded(faq.topics)
  {
  }

  // ---- A whole weekly pass ----

  /** Main result. A pass whose merges are harmless, each on what the ones before it left, keeps the
      outline. */
  lemma {:induction false} TidyKeepsOutline(faq: Faq, merges: seq<Merge>)
    requires Tidied(faq) && forall i | 0 <= i < |merges| :: Harmless(MergeAll(faq, merges[..i]), Fold(merges[i]))
    ensures Tidied(MergeAll(faq, merges))
  {
    hide Tidied, Harmless, MergeOne;
    if merges != [] {
      var init := merges[..|merges| - 1];
      assert forall i | 0 <= i < |init| :: init[..i] == merges[..i];
      TidyKeepsOutline(faq, init);
      FoldTidiedIff(MergeAll(faq, init), merges[|merges| - 1]);
    }
  }

  // ---- The code ----

  class TopicFile {
    var topics: Topics
    var entries: map<Id, Id>

    ghost function Now(): Faq
      reads this
    {
      Faq(topics, entries)
    }

    constructor ()
      ensures Now() == Faq(map[], map[])
    {
      topics, entries := map[], map[];
    }

    method Insert(id: Id, parent: Id, title: string, locked: bool) returns (ok: bool)
      modifies this
      ensures var r := InsertTopic(old(topics), id, parent, title, locked);
              ok == r.Some? && Now() == Faq(if ok then r.value else old(topics), old(entries))
    {
      if parent != 0 {
        if parent !in topics {
          return false;
        }
        if topics[parent].parent != 0 || topics[parent].merged.Some? {
          return false; // the parent is no live top-level topic
        }
      }
      if id in topics {
        return false;
      }
      topics := topics[id := Topic(parent, title, None, locked)];
      return true;
    }

    method Edit(id: Id, title: string, parent: Id) returns (ok: bool)
      modifies this
      ensures var r := EditTopic(old(topics), id, title, parent);
              ok == r.Some? && Now() == Faq(if ok then r.value else old(topics), old(entries))
    {
      if title == "" || |title| > MAX_TOPIC {
        return false;
      }
      if id !in topics || topics[id].merged.Some? {
        return false;
      }
      if parent != 0 {
        if parent !in topics || topics[parent].merged.Some? {
          return false;
        }
        var kids := |set k | k in topics && topics[k].parent == id && topics[k].merged.None?|;
        assert Kids(topics, id) == set k | k in topics && topics[k].parent == id && topics[k].merged.None?;
        if topics[parent].parent != 0 || kids > 0 || parent == id {
          return false;
        }
      }
      topics := topics[id := topics[id].(title := title, parent := parent, locked := true)];
      return true;
    }

    /** An entry goes under the live topic its topic was merged into. */
    method FileEntry(e: Id, topic: Id) returns (ok: bool)
      modifies this
      ensures var r := Lookup(old(topics), topic, LOOKUPS);
              ok == r.Some? && topics == old(topics) &&
              entries == if ok then old(entries)[e := r.value] else old(entries)
    {
      var live := LiveTopic(topics, topic);
      if live.None? {
        return false;
      }
      entries := entries[e := live.value];
      return true;
    }

    /** TidyTopics: its merges, in order, each checked against what the ones before it left; then its
        renamings. */
    method Tidy(merges: seq<Merge>, renames: seq<Rename>)
      modifies this
      ensures var merged := MergeAll(old(Now()), merges); Now() == merged.(topics := RenameAll(merged.topics, renames))
    {
      for i := 0 to |merges|
        invariant Now() == MergeAll(old(Now()), merges[..i])
      {
        assert merges[..i + 1][..i] == merges[..i];
        TidyOne(merges[i]);
      }
      assert merges[..|merges|] == merges;
      ghost var merged := Now();
      for i := 0 to |renames|
        invariant Now() == merged.(topics := RenameAll(merged.topics, renames[..i]))
      {
        assert renames[..i + 1][..i] == renames[..i];
        var t := renames[i].id;
        if renames[i].title != "" && |renames[i].title| <= MAX_TOPIC && t in topics &&
           topics[t].merged.None? && !topics[t].locked {
          topics := topics[t := topics[t].(title := renames[i].title)];
        }
      }
      assert renames[..|renames|] == renames;
    }

    method TidyOne(m: Merge)
      modifies this
      ensures Now() == MergeOne(old(Now()), m)
    {
      if m.keep == m.drop || m.drop !in topics || topics[m.drop].locked || topics[m.drop].merged.Some? {
        return;
      }
      var keep := LiveTopic(topics, m.keep);
      if keep.None? || keep.value == m.drop {
        return;
      }
      var kp := if m.keep in topics then topics[m.keep].parent else 0;
      var kids := |set k | k in topics && topics[k].parent == m.drop && topics[k].merged.None?|;
      assert Kids(topics, m.drop) == set k | k in topics && topics[k].parent == m.drop && topics[k].merged.None?;
      if kp == m.drop || (kids > 0 && kp != 0) {
        return; // a third level would come of it
      }
      entries := map e | e in entries :: if entries[e] == m.drop then m.keep else entries[e];
      topics := map t | t in topics ::
        if topics[t].parent == m.drop && topics[t].merged.None? then topics[t].(parent := m.keep) else topics[t];
      topics := topics[m.drop := topics[m.drop].(merged := Some(m.keep))];
    }
  }
}
