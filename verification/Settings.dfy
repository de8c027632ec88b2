/**
 A group's settings row and the two commands that write it (internal/cmd/settings.go,
 internal/cmd/crosslog.go): InitGroup, which the new group's log gets from CreateGroup, and
 UpdateSettings, which sends site.db the mirrored values as they now are.
 */
module Settings {
  import opened Types
  import opened Outbox
  import opened Mirror

  /** A value as a settings page sends it. */
  datatype Raw = Text(s: string) | Flag(b: bool) | Number(n: int)

  /** The settings row. Columns that no rule below singles out are kept in others. */
  datatype Row0 = Row0(mirrored: Mirrored, publicFAQ: bool, others: map<string, Raw>)

  datatype SettingsError = NoError | NotASetting(column: string) | BadValue(column: string) | NoSettingsYet

  const MIRRORED: set<string> := {"name", "visibility", "ai_enabled"}

  const TEXT_LIMITS: map<string, (nat, nat)> := map[
    "name" := (1, 100), "description" := (0, 2000), "rules" := (0, 5000), "join_questions" := (0, 2000)]

  const CHOICES: map<string, set<string>> := map[
    "visibility" := {"public", "private", "hidden"}, "join_policy" := {"open", "approval", "invite"}]

  const SWITCHES: set<string> := {"allow_anonymous", "hold_first_post", "allow_indexing", "ai_enabled",
                                  "ai_local_only", "public_faq", "notify_hidden"}

  /** Unicode's white space. */
  predicate Space(c: char) {
    c == ' ' || '\t' <= c <= '\r' || c == '\U{85}' || c == '\U{A0}' || c == '\U{1680}' || '\U{2000}' <= c <= '\U{200A}' ||
    c == '\U{2028}' || c == '\U{2029}' || c == '\U{202F}' || c == '\U{205F}' || c == '\U{3000}'
  }

  function TrimLeft(s: string): string {
    if s != [] && Space(s[0]) then TrimLeft(s[1..]) else s
  }

  function TrimRight(s: string): string {
    if s != [] && Space(s[|s| - 1]) then TrimRight(s[..|s| - 1]) else s
  }

  predicate IsSetting(column: string) {
    column in TEXT_LIMITS || column in CHOICES || column in SWITCHES || column == "vote_threshold"
  }

  /** settingRules: a column's value as it would be stored, or None if it is not allowed. */
  function Check(column: string, v: Raw): (r: Option<Raw>)
    requires IsSetting(column)
    ensures r.Some? && (column in TEXT_LIMITS || column in CHOICES) ==> r.value.Text?
    ensures r.Some? && column in SWITCHES ==> r.value.Flag?
    ensures r.Some? && column == "visibility" ==> r.value.s in CHOICES["visibility"]
  {
    if column in TEXT_LIMITS then
      if v.Text? && TEXT_LIMITS[column].0 <= |TrimRight(TrimLeft(v.s))| <= TEXT_LIMITS[column].1
      then Some(Text(TrimRight(TrimLeft(v.s)))) else None
    else if column in CHOICES then
      if v.Text? && v.s in CHOICES[column] then Some(v) else None
    else if column in SWITCHES then
      if v.Flag? then Some(v) else None
    else
      if v.Number? && 1 <= v.n <= 50 then Some(v) else None
  }

  predicate Acceptable(change: map<string, Raw>) {
    forall k <- change :: IsSetting(k) && Check(k, change[k]).Some?
  }

  /** The checked values of an acceptable change. */
  function Values(change: map<string, Raw>): map<string, Raw>
    requires Acceptable(change)
  {
    map k | k in change :: Check(k, change[k]).value
  }

  function NewMirrored(m: Mirrored, change: map<string, Raw>): Mirrored
    requires Acceptable(change)
  {
    var v := Values(change);
    Mirrored(if "name" in v then v["name"].s else m.name,
             if "visibility" in v then v["visibility"].s else m.visibility,
             if "ai_enabled" in v then v["ai_enabled"].b else m.aiEnabled)
  }

  /** A public group going private takes its FAQ with it, unless the change says otherwise. */
  function NewPublicFAQ(r: Row0, change: map<string, Raw>): bool
    requires Acceptable(change)
  {
    var v := Values(change);
    if "public_faq" in v then v["public_faq"].b
    else r.publicFAQ && !("visibility" in v && v["visibility"].s != "public" && r.mirrored.visibility == "public")
  }

  function NewRow(r: Row0, change: map<string, Raw>): Row0
    requires Acceptable(change)
  {
    Row0(NewMirrored(r.mirrored, change), NewPublicFAQ(r, change),
         r.others + (Values(change) - (MIRRORED + {"public_faq"})))
  }

  // ---- What a change does, column by column ----

  /** A stored value, by the name of its column. */
  function Column(r: Row0, k: string): Option<Raw> {
    match k
    case "name" => Some(Text(r.mirrored.name))
    case "visibility" => Some(Text(r.mirrored.visibility))
    case "ai_enabled" => Some(Flag(r.mirrored.aiEnabled))
    case "public_faq" => Some(Flag(r.publicFAQ))
    case _ => if k in r.others then Some(r.others[k]) else None
  }

  /** Before i and from j on there is white space only, and what is between neither starts nor ends with it. */
  ghost predicate Cuts(s: string, i: nat, j: nat) {
    && i <= j <= |s| && (forall k | 0 <= k < i :: Space(s[k])) && (forall k | j <= k < |s| :: Space(s[k]))
    && (i < j ==> !Space(s[i]) && !Space(s[j - 1]))
  }

  /** t is s without the white space at its ends. */
  ghost predicate Trims(s: string, t: string) {
    exists i: nat, j: nat | i <= j <= |s| :: Cuts(s, i, j) && t == s[i..j]
  }

  lemma {:induction false} TrimLeftTrims(s: string) returns (i: nat)
    ensures i <= |s| && TrimLeft(s) == s[i..] && (forall k | 0 <= k < i :: Space(s[k])) && (i < |s| ==> !Space(s[i]))
  {
    i := 0;
    if s != [] && Space(s[0]) {
      var j := TrimLeftTrims(s[1..]);
      i := j + 1;
      assert forall k | 1 <= k < i :: s[k] == s[1..][k - 1];
    }
  }

  lemma {:induction false} TrimRightTrims(s: string) returns (j: nat)
    ensures j <= |s| && TrimRight(s) == s[..j] && (forall k | j <= k < |s| :: Space(s[k])) &&
            (j > 0 ==> !Space(s[j - 1]))
  {
    j := |s|;
    if s != [] && Space(s[|s| - 1]) {
      j := TrimRightTrims(s[..|s| - 1]);
    }
  }

  lemma TrimBoth(s: string)
    ensures Trims(s, TrimRight(TrimLeft(s)))
  {
    hide Space;
    var i := TrimLeftTrims(s);
    var j := TrimRightTrims(s[i..]);
    assert s[i..][..j] == s[i..i + j];
    forall k | i + j <= k < |s| ensures Space(s[k]) { assert s[k] == s[i..][k - i]; }
    if j > 0 { assert s[i..][j - 1] == s[i + j - 1] && s[i] == s[i..][0]; }
    assert Cuts(s, i, i + j);
  }

  /** A value that is stored is what was sent: a text without the white space around it, within its
      limits; one of the choices; a switch; or a number from 1 to 50. */
  ghost predicate Storable(column: string, v: Raw, stored: Raw) {
    match column
    case "name" => v.Text? && stored.Text? && Trims(v.s, stored.s) && 1 <= |stored.s| <= 100
    case "description" | "join_questions" => v.Text? && stored.Text? && Trims(v.s, stored.s) && |stored.s| <= 2000
    case "rules" => v.Text? && stored.Text? && Trims(v.s, stored.s) && |stored.s| <= 5000
    case "visibility" => stored == v && (v == Text("public") || v == Text("private") || v == Text("hidden"))
    case "join_policy" => stored == v && (v == Text("open") || v == Text("approval") || v == Text("invite"))
    case "vote_threshold" => stored == v && v.Number? && 1 <= v.n <= 50
    case "allow_anonymous" | "hold_first_post" | "allow_indexing" | "ai_enabled" => stored == v && v.Flag?
    case "ai_local_only" | "public_faq" | "notify_hidden" => stored == v && v.Flag?
    case _ => false
  }

  lemma CutsOnce(s: string, i: nat, j: nat, m: nat, n: nat)
    requires Cuts(s, i, j) && Cuts(s, m, n)
    ensures s[i..j] == s[m..n]
  {
    hide Space;
    if i < j { assert m <= i < n && m < j <= n; }
    assert i < j <==> m < n;
  }

  lemma TrimsOnce(s: string, t: string, u: string)
    requires Trims(s, t) && Trims(s, u)
    ensures t == u
  {
    hide Cuts;
    var i: nat, j: nat :| i <= j <= |s| && Cuts(s, i, j) && t == s[i..j];
    var m: nat, n: nat :| m <= n <= |s| && Cuts(s, m, n) && u == s[m..n];
    CutsOnce(s, i, j, m, n);
  }

  /** The checks accept a value exactly when it can be stored, and store it so. */
  lemma CheckIs(column: string, v: Raw, stored: Raw)
    ensures IsSetting(column) && Check(column, v) == Some(stored) <==> Storable(column, v, stored)
  {
    hide Space, TrimLeft, TrimRight, Trims;
    if v.Text? {
      TrimBoth(v.s);
      if stored.Text? && Trims(v.s, stored.s) { TrimsOnce(v.s, stored.s, TrimRight(TrimLeft(v.s))); }
    }
  }

  /** Each column in the change holds what was sent, as it is stored; each other is as it was, but for
      public_faq, which a group that leaves "public" takes with it. */
  ghost predicate ColumnsSet(was: Row0, now: Row0, change: map<string, Raw>) {
    var leaves := was.mirrored.visibility == "public" && now.mirrored.visibility != "public";
    && (forall k <- change :: Column(now, k).Some? && Storable(k, change[k], Column(now, k).value))
    && (forall k | k !in change && k != "public_faq" :: Column(now, k) == Column(was, k))
    && ("public_faq" !in change ==> now.publicFAQ == (was.publicFAQ && !leaves))
  }

  lemma ValueStored(change: map<string, Raw>, k: string)
    requires Acceptable(change) && k in change
    ensures k in Values(change) && Check(k, change[k]) == Some(Values(change)[k]) &&
            Storable(k, change[k], Values(change)[k])
  {
    CheckIs(k, change[k], Values(change)[k]);
    hide Check, Storable;
  }

  lemma ValueTypes(change: map<string, Raw>)
    requires Acceptable(change)
    ensures var v := Values(change);
            v.Keys == change.Keys && ("name" in v ==> v["name"].Text?) &&
            ("visibility" in v ==> v["visibility"].Text?) &&
            ("ai_enabled" in v ==> v["ai_enabled"].Flag?) && ("public_faq" in v ==> v["public_faq"].Flag?)
  {
  }

  lemma ColumnStored(r: Row0, change: map<string, Raw>, k: string)
    requires Acceptable(change) && k in change
    ensures Column(NewRow(r, change), k) == Some(Values(change)[k])
  {
    ValueStored(change, k);
    hide Acceptable, Values, Storable;
  }

  lemma ColumnStays(r: Row0, change: map<string, Raw>, k: string)
    requires Acceptable(change) && k !in change && k != "public_faq"
    ensures Column(NewRow(r, change), k) == Column(r, k)
  {
    assert k !in Values(change);
    hide Acceptable, Values;
  }

  lemma NewRowColumns(r: Row0, change: map<string, Raw>)
    requires Acceptable(change)
    ensures ColumnsSet(r, NewRow(r, change), change)
  {
    forall k <- change
      ensures Column(NewRow(r, change), k).Some? && Storable(k, change[k], Column(NewRow(r, change), k).value)
    {
      ValueStored(change, k);
      ColumnStored(r, change, k);
      hide NewRow, Column, Storable, Acceptable, Values;
    }
    forall k | k !in change && k != "public_faq" ensures Column(NewRow(r, change), k) == Column(r, k) {
      ColumnStays(r, change, k);
      hide NewRow, Column;
    }
    hide Column, Storable, Acceptable;
    assert Values(change).Keys == change.Keys;
    hide Values;
  }

  // ---- The order of columns ----

  /** Dictionary order. */
  predicate Before(a: string, b: string) {
    b != [] && (a == [] || a[0] < b[0] || (a[0] == b[0] && Before(a[1..], b[1..])))
  }

  /** At place i a comes first: up to there they are the same, and there a ends or has the smaller character. */
  ghost predicate FirstAt(a: string, b: string, i: nat) {
    i <= |a| && i < |b| && a[..i] == b[..i] && (i == |a| || a[i] < b[i])
  }

  lemma FirstAtTail(a: string, b: string, i: nat)
    requires a != [] && b != [] && a[0] == b[0]
    ensures FirstAt(a[1..], b[1..], i) <==> FirstAt(a, b, i + 1)
  {
    if i < |a| && i < |b| {
      assert a[..i + 1] == [a[0]] + a[1..][..i] && b[..i + 1] == [b[0]] + b[1..][..i];
      assert a[1..][..i] == a[..i + 1][1..] && b[1..][..i] == b[..i + 1][1..];
    }
  }

  lemma {:induction false} FirstIsBefore(a: string, b: string, i: nat)
    requires FirstAt(a, b, i)
    ensures Before(a, b)
    decreases i
  {
    if i > 0 {
      assert a[..i][0] == b[..i][0];
      FirstAtTail(a, b, i - 1);
      FirstIsBefore(a[1..], b[1..], i - 1);
    }
  }

  /** Dictionary order: one name is before another if it is its beginning, or smaller where they first differ. */
  lemma {:induction false} BeforeIff(a: string, b: string)
    ensures Before(a, b) <==> exists i :: FirstAt(a, b, i)
  {
    if i :| FirstAt(a, b, i) { FirstIsBefore(a, b, i); }
    if Before(a, b) {
      if a == [] || a[0] < b[0] {
        assert FirstAt(a, b, 0);
      } else {
        BeforeIff(a[1..], b[1..]);
        var i :| FirstAt(a[1..], b[1..], i);
        FirstAtTail(a, b, i);
      }
    }
  }

  lemma {:induction false} OneBefore(a: string, b: string)
    ensures a == b || Before(a, b) || Before(b, a)
  {
    if a != [] && b != [] {
      OneBefore(a[1..], b[1..]);
      if a[0] == b[0] && a[1..] == b[1..] { assert a == [a[0]] + a[1..] && b == [b[0]] + b[1..]; }
    }
  }

  lemma {:induction false} BeforeThen(a: string, b: string, c: string)
    requires Before(a, b) && Before(b, c)
    ensures Before(a, c) && a != c
  {
    if a != [] && a[0] == b[0] && b[0] == c[0] { BeforeThen(a[1..], b[1..], c[1..]); }
  }

  ghost predicate InOrder(cols: seq<string>) {
    forall i, j | 0 <= i < j < |cols| :: Before(cols[i], cols[j])
  }

  /** The columns of a change, in the order in which they are checked. */
  method Columns(names: set<string>) returns (cols: seq<string>)
    ensures InOrder(cols) && forall k :: k in cols <==> k in names
  {
    var left := names;
    cols := [];
    while left != {}
      invariant left <= names && InOrder(cols) && forall k :: k in cols <==> k in names - left
    {
      var k :| k in left;
      cols := InsertColumn(cols, k);
      left := left - {k};
    }
  }

  method InsertColumn(cols: seq<string>, k: string) returns (r: seq<string>)
    requires InOrder(cols) && k !in cols
    ensures InOrder(r) && forall x :: x in r <==> x in cols || x == k
  {
    var i := 0;
    while i < |cols| && Before(cols[i], k)
      invariant 0 <= i <= |cols| && forall j | 0 <= j < i :: Before(cols[j], k)
    {
      i := i + 1;
    }
    r := cols[..i] + [k] + cols[i..];
    InsertedInOrder(cols, k, i);
  }

  lemma InsertedInOrder(cols: seq<string>, k: string, i: nat)
    requires InOrder(cols) && k !in cols && i <= |cols|
    requires (forall j | 0 <= j < i :: Before(cols[j], k)) && (i < |cols| ==> !Before(cols[i], k))
    ensures InOrder(cols[..i] + [k] + cols[i..])
  {
    hide Before;
    forall j | i <= j < |cols| ensures Before(k, cols[j]) {
      OneBefore(cols[i], k);
      if i < j { BeforeThen(k, cols[i], cols[j]); }
    }
  }

  predicate Bad(column: string, v: Raw) { !IsSetting(column) || Check(column, v).None? }

  /** What is said of a column that is not allowed. */
  function ErrorOf(column: string): SettingsError {
    if IsSetting(column) then BadValue(column) else NotASetting(column)
  }

  /** The error for the first column, in order, that is not allowed. */
  ghost predicate FirstError(change: map<string, Raw>, err: SettingsError) {
    exists k <- change :: Bad(k, change[k]) && err == ErrorOf(k) &&
      forall j <- change :: Bad(j, change[j]) ==> j == k || Before(k, j)
  }

  /** A group's file, as far as its settings go. start is what CreateGroup wrote in site.db's
      group list, and sent is every follow-up the file ever put in its outbox. */
  class GroupSettings {
    const start: Mirrored
    var row: Option<Row0>
    var sent: seq<Row<Msg>>

    constructor (start: Mirrored)
      requires start.aiEnabled // CreateGroup leaves the column at its default
      ensures this.start == start && row == None && sent == [] && Tied()
    {
      this.start := start;
      row := None;
      sent := [];
    }

    /** The mirrored columns are always the values last sent to site.db. */
    ghost predicate Tied()
      reads this
    {
      (row.Some? ==> row.value.mirrored == LastMirror(sent, start)) && (row.None? ==> !HasMirror(sent))
    }

    /** InitGroup: INSERT OR IGNORE, so a second delivery changes nothing. */
    method InitGroup()
      requires Tied() && start.aiEnabled
      modifies this
      ensures Tied() && sent == old(sent)
      ensures old(row.Some?) ==> row == old(row)
      ensures old(row.None?) ==> row == Some(Row0(start, start.visibility == "public", map[]))
    {
      if row.None? {
        MirrorCases(sent, start);
        row := Some(Row0(Mirrored(start.name, start.visibility, true), start.visibility == "public", map[]));
      }
    }

    /** The transaction of UpdateSettings, once the values are checked. */
    method Store(change: map<string, Raw>, values: map<string, Raw>)
      requires Tied() && row.Some?
      requires Acceptable(change) && values == Values(change)
      modifies this
      ensures Tied()
      ensures row == Some(NewRow(old(row).value, change))
      ensures sent == if change.Keys !! MIRRORED then old(sent)
                      else old(sent) + [Row(|old(sent)| + 1, SITE, MirrorGroup(row.value.mirrored))]
    {
      var r := row.value;
      var m, faq := SetColumns(r, change, values);
      assert change.Keys !! MIRRORED ==> m == r.mirrored by {
        if change.Keys !! MIRRORED { UnmirroredChangeKeepsMirror(r.mirrored, change); }
      }
      assert values.Keys == change.Keys;
      hide Values, Acceptable, HasMirror, LastMirror, NewMirrored, NewPublicFAQ;
      row := Some(Row0(m, faq, r.others + (values - (MIRRORED + {"public_faq"}))));
      if !(values.Keys !! MIRRORED) {
        var next := Row(|sent| + 1, SITE, MirrorGroup(m));
        MirrorSent(sent, next, start);
        sent := sent + [next];
      }
    }

    /** The columns that rules single out, as the UPDATE leaves them. */
    method SetColumns(r: Row0, change: map<string, Raw>, values: map<string, Raw>) returns (m: Mirrored, faq: bool)
      requires Acceptable(change) && values == Values(change)
      ensures m == NewMirrored(r.mirrored, change) && faq == NewPublicFAQ(r, change)
    {
      ValueTypes(change);
      hide Values, Acceptable;
      faq := r.publicFAQ;
      if "public_faq" in values {
        faq := values["public_faq"].b;
      } else if "visibility" in values && values["visibility"].s != "public" && r.mirrored.visibility == "public" {
        faq := false;
      }
      m := r.mirrored;
      if "name" in values { m := m.(name := values["name"].s); }
      if "visibility" in values { m := m.(visibility := values["visibility"].s); }
      if "ai_enabled" in values { m := m.(aiEnabled := values["ai_enabled"].b); }
    }

    method UpdateSettings(change: map<string, Raw>) returns (err: SettingsError)
      requires Tied()
      modifies this
      ensures Tied()
      ensures err == NoError <==> Acceptable(change) && (old(row).None? ==> change.Keys !! MIRRORED)
      ensures !Acceptable(change) ==> FirstError(change, err)
      ensures Acceptable(change) && err != NoError ==> err == NoSettingsYet
      ensures err != NoError || old(row).None? ==> row == old(row) && sent == old(sent)
      ensures err == NoError && old(row).Some? ==>
                && row == Some(NewRow(old(row).value, change)) && ColumnsSet(old(row).value, row.value, change)
                && sent == if change.Keys !! MIRRORED then old(sent)
                           else old(sent) + [Row(|old(sent)| + 1, SITE, MirrorGroup(row.value.mirrored))]
    {
      var values;
      values, err := CheckAll(change);
      if err != NoError {
        return err;
      }
      if values == map[] {
        assert change == map[];
        assert row.Some? ==> row.value == NewRow(row.value, change);
        if row.Some? { NewRowColumns(row.value, change); }
        return NoError;
      }
      if row.None? {
        // The update matches no row, and reading the values back to send them fails.
        return if values.Keys !! MIRRORED then NoError else NoSettingsYet;
      }
      NewRowColumns(row.value, change);
      Store(change, values);
    }
  }

  lemma MirrorSent(sent: seq<Row<Msg>>, next: Row<Msg>, start: Mirrored)
    requires next.msg.MirrorGroup?
    ensures LastMirror(sent + [next], start) == next.msg.values
  {
    assert (sent + [next])[..|sent|] == sent;
  }

  /** The checks UpdateSettings makes before its transaction, column by column in order. */
  method CheckAll(change: map<string, Raw>) returns (values: map<string, Raw>, err: SettingsError)
    ensures err == NoError <==> Acceptable(change)
    ensures err == NoError ==> values == Values(change)
    ensures err != NoError ==> FirstError(change, err)
  {
    hide Before, InOrder, Check, IsSetting, FirstError;
    var cols := Columns(change.Keys);
    values, err := map[], NoError;
    for i := 0 to |cols|
      invariant err == NoError && forall k :: k in values <==> k in cols[..i]
      invariant forall k <- values :: k in change && !Bad(k, change[k]) && Check(k, change[k]) == Some(values[k])
    {
      var k := cols[i];
      assert forall x :: x in cols[..i + 1] <==> x in cols[..i] || x == k;
      if !IsSetting(k) || Check(k, change[k]).None? {
        err := if IsSetting(k) then BadValue(k) else NotASetting(k);
        FirstBad(change, cols, i, err);
        return map[], err;
      }
      values := values[k := Check(k, change[k]).value];
    }
    assert cols[..|cols|] == cols && forall k <- change :: k in values;
  }

  lemma FirstBad(change: map<string, Raw>, cols: seq<string>, i: nat, err: SettingsError)
    requires InOrder(cols) && (forall k :: k in cols <==> k in change.Keys) && i < |cols|
    requires Bad(cols[i], change[cols[i]]) && err == ErrorOf(cols[i]) &&
             forall k <- cols[..i] :: k in change && !Bad(k, change[k])
    ensures FirstError(change, err)
  {
  }

  /** Sends nothing and changes no mirrored column: the same thing. */
  lemma UnmirroredChangeKeepsMirror(m: Mirrored, change: map<string, Raw>)
    requires Acceptable(change) && change.Keys !! MIRRORED
    ensures NewMirrored(m, change) == m
  {
  }

  /** Main result. Put together with the relay: in a run with one relay at a time whose sender
      is this group, once no MirrorGroup waits, site.db's copy is the group's settings row. */
  lemma SiteFollowsSettings(g: GroupSettings, events: seq<Event<Msg>>)
    requires g.Tied() && g.row.Some?
    requires Serial(events) && Run(events).sent == g.sent
    requires !HasMirror(Run(events).outbox)
    ensures LastMirror(Run(events).landed, g.start) == g.row.value.mirrored
  {
    MirrorStaysCoherent(events, g.start);
    CoherentMeans(Run(events), g.start);
  }
}
