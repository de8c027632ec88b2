/**
 The cache of public pages (internal/web/cache.go, server.go, hosts.go). A request first works out
 from site.db which group its host is, and a page prints what it read there. Then it reads the
 applied indexes of site.db and of the group's file. A page is kept with those two indexes, and is
 only served to requests that read the same two. Requests and writes interleave in any order.

 A file's index only ever grows, and it determines the file (module Replay), so a database read is
 described by the two indexes at that moment, and what a page says by the reads behind it.
 */
module PageCache {

  type Key = string

  type RequestId = nat

  const MAX_PAGES: nat := 2000

  /** The two indexes a database read sees. */
  datatype Seen = Seen(site: nat, group: nat)

  /** A kept page: its label, the reads of site.db that found its group, the reads its rendering made,
      and when it was kept. */
  datatype Page = Page(mark: Seen, route: seq<nat>, saw: seq<Seen>, keptAt: nat)

  /** How far a request has come. began: the time and the indexes when it read the first index. */
  datatype Phase =
    | Resolving(key: Key, route: seq<nat>)                                // finding the group
    | Reading(key: Key, route: seq<nat>, began: nat, at: Seen)            // it has read site.db's index
    | Ready(key: Key, route: seq<nat>, began: nat, at: Seen, read: Seen)  // and the group's
    | Rendering(key: Key, route: seq<nat>, began: nat, at: Seen, read: Seen, saw: seq<Seen>)
    | Hit(began: nat, at: Seen, read: Seen, page: Page)  // served from the cache
    | Rendered

  datatype State = State(clock: nat, now: Seen, pages: map<Key, Page>, requests: map<RequestId, Phase>)

  datatype Event =
    | WriteSite(to: nat)
    | WriteGroup(to: nat)
    | Arrive(r: RequestId, key: Key)
    | Resolve(r: RequestId)             // a read of site.db, for the primary domain or the group's row
    | ReadSite(r: RequestId)
    | ReadGroup(r: RequestId)
    | Look(r: RequestId)
    | Query(r: RequestId)               // a database read of a request that is rendering
    | Finish(r: RequestId, keep: bool)  // keep: a plain page without a cookie

  /** The store at the end of serveCached: a full cache is emptied first. */
  function Kept(pages: map<Key, Page>, key: Key, p: Page): map<Key, Page> {
    (if |pages| >= MAX_PAGES then map[] else pages)[key := p]
  }

  function Step(s: State, e: Event): State {
    match e
    case WriteSite(to) => if to > s.now.site then s.(now := s.now.(site := to)) else s
    case WriteGroup(to) => if to > s.now.group then s.(now := s.now.(group := to)) else s
    case Arrive(r, key) =>
      if r in s.requests then s else s.(requests := s.requests[r := Resolving(key, [])])
    case Resolve(r) =>
      if r in s.requests && s.requests[r].Resolving? then
        var q := s.requests[r];
        s.(requests := s.requests[r := Resolving(q.key, q.route + [s.now.site])])
      else s
    case ReadSite(r) =>
      if r in s.requests && s.requests[r].Resolving? then
        s.(requests := s.requests[r := Reading(s.requests[r].key, s.requests[r].route, s.clock, s.now)])
      else s
    case ReadGroup(r) =>
      if r in s.requests && s.requests[r].Reading? then
        var q := s.requests[r];
        s.(requests := s.requests[r := Ready(q.key, q.route, q.began, q.at, Seen(q.at.site, s.now.group))])
      else s
    case Look(r) =>
      if r in s.requests && s.requests[r].Ready? then
        var q := s.requests[r];
        if q.key in s.pages && s.pages[q.key].mark == q.read
        then s.(requests := s.requests[r := Hit(q.began, q.at, q.read, s.pages[q.key])])
        else s.(requests := s.requests[r := Rendering(q.key, q.route, q.began, q.at, q.read, [])])
      else s
    case Query(r) =>
      if r in s.requests && s.requests[r].Rendering? then
        s.(requests := s.requests[r := s.requests[r].(saw := s.requests[r].saw + [s.now])])
      else s
    case Finish(r, keep) =>
      if r in s.requests && s.requests[r].Rendering? then
        var q := s.requests[r];
        s.(requests := s.requests[r := Rendered],
           pages := if keep then Kept(s.pages, q.key, Page(q.read, q.route, q.saw, s.clock)) else s.pages)
      else s
  }

  /** Each event takes its own moment. */
  function Next(s: State, e: Event): State { Step(s, e).(clock := s.clock + 1) }

  function Run(events: seq<Event>): State {
    if events == [] then State(0, Seen(0, 0), map[], map[]) else Next(Run(events[..|events| - 1]), events[|events| - 1])
  }

  // ---- What always holds ----

  predicate UpTo(a: Seen, b: Seen) { a.site <= b.site && a.group <= b.group }

  /** Every read saw at least one state and at most another. */
  ghost predicate Between(low: Seen, saw: seq<Seen>, high: Seen) {
    forall x <- saw :: UpTo(low, x) && UpTo(x, high)
  }

  ghost predicate NoNewer(route: seq<nat>, site: nat) {
    forall x <- route :: x <= site
  }

  /** A page's group was found before its label was read, and its other reads came after. */
  ghost predicate PageFine(p: Page, clock: nat, now: Seen) {
    p.keptAt < clock && NoNewer(p.route, p.mark.site) && Between(p.mark, p.saw, now)
  }

  ghost predicate PageOlder(p: Page, began: nat, at: Seen) {
    p.keptAt < began ==> Between(p.mark, p.saw, at)
  }

  ghost predicate RequestFine(q: Phase, s: State) {
    match q
    case Resolving(_, route) => NoNewer(route, s.now.site)
    case Reading(_, route, began, at) => NoNewer(route, at.site) && began < s.clock && UpTo(at, s.now)
    case Ready(_, route, began, at, read) =>
      NoNewer(route, at.site) && began < s.clock && read.site == at.site && UpTo(at, read) && UpTo(read, s.now)
    case Rendering(_, route, _, _, read, saw) =>
      NoNewer(route, read.site) && UpTo(read, s.now) && Between(read, saw, s.now)
    case Hit(began, at, read, page) =>
      read.site == at.site && UpTo(at, read) && page.mark == read &&
      PageFine(page, s.clock, s.now) && PageOlder(page, began, at)
    case Rendered => true
  }

  ghost predicate PagesFine(s: State) {
    forall k <- s.pages :: PageFine(s.pages[k], s.clock, s.now)
  }

  /** Pages kept before a request began saw nothing newer than it could have seen then. */
  ghost predicate PagesOlder(s: State) {
    forall k, r {:trigger s.pages[k], s.requests[r]} | k in s.pages && r in s.requests ::
      match s.requests[r]
      case Reading(_, _, began, at) => PageOlder(s.pages[k], began, at)
      case Ready(_, _, began, at, _) => PageOlder(s.pages[k], began, at)
      case _ => true
  }

  ghost predicate Good(s: State) {
    && PagesFine(s) && PagesOlder(s) && |s.pages| <= MAX_PAGES
    && forall r <- s.requests :: RequestFine(s.requests[r], s)
  }

  /** Time passing and indexes growing spoil nothing. */
  lemma StillFine(q: Phase, s: State, s': State)
    requires RequestFine(q, s) && s.clock <= s'.clock && UpTo(s.now, s'.now)
    ensures RequestFine(q, s')
  {
  }

  lemma PagesStillFine(s: State, s': State)
    requires PagesFine(s) && s'.pages == s.pages && s.clock <= s'.clock && UpTo(s.now, s'.now)
    ensures PagesFine(s')
  {
  }

  lemma OthersStillFine(s: State, s': State, r: RequestId)
    requires forall q <- s.requests :: RequestFine(s.requests[q], s)
    requires s.clock <= s'.clock && UpTo(s.now, s'.now)
    requires forall q <- s'.requests :: q != r ==> q in s.requests && s'.requests[q] == s.requests[q]
    requires r in s'.requests ==> RequestFine(s'.requests[r], s')
    ensures forall q <- s'.requests :: RequestFine(s'.requests[q], s')
  {
  }

  lemma WriteGood(s: State, e: Event)
    requires Good(s) && (e.WriteSite? || e.WriteGroup?)
    ensures Good(Next(s, e))
  {
    PagesStillFine(s, Next(s, e));
    forall r <- s.requests ensures RequestFine(s.requests[r], Next(s, e)) {
      StillFine(s.requests[r], s, Next(s, e));
    }
  }

  lemma ReadGood(s: State, e: Event)
    requires Good(s) && (e.Arrive? || e.Resolve? || e.ReadSite? || e.ReadGroup? || e.Query?)
    ensures Good(Next(s, e))
  {
    var s' := Next(s, e);
    PagesStillFine(s, s');
    hide RequestFine;
    PhaseFine(s, e);
    OthersStillFine(s, s', e.r);
    if e.ReadSite? {
      forall k <- s.pages ensures PageOlder(s.pages[k], s.clock, s.now) {}
    }
  }

  /** A request's own next read leaves it fine. */
  lemma PhaseFine(s: State, e: Event)
    requires e.Arrive? || e.Resolve? || e.ReadSite? || e.ReadGroup? || e.Query?
    requires e.r in s.requests ==> RequestFine(s.requests[e.r], s)
    ensures e.r in Next(s, e).requests ==> RequestFine(Next(s, e).requests[e.r], Next(s, e))
  {
    if e.r in s.requests { StillFine(s.requests[e.r], s, Next(s, e)); }
  }

  lemma LookGood(s: State, r: RequestId)
    requires Good(s)
    ensures Good(Next(s, Look(r)))
  {
  }

  lemma FinishGood(s: State, r: RequestId, keep: bool)
    requires Good(s)
    ensures Good(Next(s, Finish(r, keep)))
  {
    var s' := Next(s, Finish(r, keep));
    OthersStillFine(s, s', r);
    if r in s.requests && s.requests[r].Rendering? && keep {
      var q := s.requests[r];
      KeptSize(s.pages, q.key, Page(q.read, q.route, q.saw, s.clock));
      forall k <- s'.pages ensures PageFine(s'.pages[k], s'.clock, s'.now) {
        if k != q.key { assert PageFine(s.pages[k], s.clock, s.now); }
      }
    } else {
      PagesStillFine(s, s');
    }
  }

  lemma KeptSize(pages: map<Key, Page>, key: Key, p: Page)
    requires |pages| <= MAX_PAGES
    ensures |Kept(pages, key, p)| <= MAX_PAGES
  {
  }

  lemma {:induction false} AlwaysGood(events: seq<Event>)
    ensures Good(Run(events))
  {
    if events != [] {
      var s, e := Run(events[..|events| - 1]), events[|events| - 1];
      AlwaysGood(events[..|events| - 1]);
      match e
      case WriteSite(_) => WriteGood(s, e);
      case WriteGroup(_) => WriteGood(s, e);
      case Arrive(_, _) => ReadGood(s, e);
      case Resolve(_) => ReadGood(s, e);
      case ReadSite(_) => ReadGood(s, e);
      case ReadGroup(_) => ReadGood(s, e);
      case Query(_) => ReadGood(s, e);
      case Look(r) => LookGood(s, r);
      case Finish(r, keep) => FinishGood(s, r, keep);
    }
  }

  /** Main result. In every run, whatever is written meanwhile, take a page that is served from the
      cache. No database read its rendering made after the label saw a state older than the indexes
      the request read; and if it was kept before the request began, each of them saw just these two.
      The reads that found its group saw nothing newer. */
  lemma HitsAreFresh(events: seq<Event>, r: RequestId)
    requires r in Run(events).requests && Run(events).requests[r].Hit?
    ensures var q := Run(events).requests[r];
            (forall x <- q.page.saw :: UpTo(q.read, x)) && (forall x <- q.page.route :: x <= q.read.site) &&
            (q.page.keptAt < q.began ==> forall x <- q.page.saw :: x == q.read)
  {
    AlwaysGood(events);
    var q := Run(events).requests[r];
    assert RequestFine(q, Run(events));
    if q.page.keptAt < q.began {
      assert Between(q.page.mark, q.page.saw, q.at);
    }
  }

  /** All the reads behind a page, before the label and after, saw these states. */
  ghost predicate Exact(p: Page, read: Seen) {
    (forall x <- p.route :: x == read.site) && forall x <- p.saw :: x == read
  }

  /** Main result. A page that was kept before the request began is exactly what rendering it from the
      states it is served at gives, if and only if site.db had not moved between the reads that found
      the page's group and its label. */
  lemma HitsAreExactIff(events: seq<Event>, r: RequestId)
    requires r in Run(events).requests && Run(events).requests[r].Hit?
    requires Run(events).requests[r].page.keptAt < Run(events).requests[r].began
    ensures var q := Run(events).requests[r];
            Exact(q.page, q.read) <==> forall x <- q.page.route :: x == q.page.mark.site
  {
    HitsAreFresh(events, r);
    AlwaysGood(events);
    assert RequestFine(Run(events).requests[r], Run(events));
  }

  /** A request that finds the group, then waits while site.db is written, and is kept; and a later one
      for the same page. */
  function Overtaken(key: Key, to: nat): seq<Event> {
    [Arrive(0, key), Resolve(0), WriteSite(to), ReadSite(0), ReadGroup(0), Look(0), Query(0), Finish(0, true),
     Arrive(1, key), Resolve(1), ReadSite(1), ReadGroup(1), Look(1)]
  }

  /** A state in which request r is in this phase. */
  ghost predicate Is(s: State, clock: nat, now: Seen, pages: map<Key, Page>, r: RequestId, phase: Phase) {
    s.clock == clock && s.now == now && s.pages == pages && r in s.requests && s.requests[r] == phase
  }

  lemma RunSnoc(events: seq<Event>, e: Event)
    ensures Run(events + [e]) == Next(Run(events), e)
  {
    assert (events + [e])[..|events|] == events;
  }

  lemma Found(events: seq<Event>, r: RequestId, key: Key) returns (e: seq<Event>)
    requires r !in Run(events).requests
    ensures e == events + [Arrive(r, key)] + [Resolve(r)]
    ensures var s := Run(events);
            Is(Run(e), s.clock + 2, s.now, s.pages, r, Resolving(key, [s.now.site])) &&
            Run(e).requests.Keys == s.requests.Keys + {r}
  {
    hide Run;
    RunSnoc(events, Arrive(r, key));
    RunSnoc(events + [Arrive(r, key)], Resolve(r));
    e := events + [Arrive(r, key)] + [Resolve(r)];
  }

  lemma Written(events: seq<Event>, r: RequestId, phase: Phase, to: nat) returns (e: seq<Event>)
    requires Is(Run(events), Run(events).clock, Run(events).now, Run(events).pages, r, phase) &&
             to > Run(events).now.site
    ensures e == events + [WriteSite(to)]
    ensures var s := Run(events);
            Is(Run(e), s.clock + 1, Seen(to, s.now.group), s.pages, r, phase) && Run(e).requests.Keys == s.requests.Keys
  {
    hide Run;
    RunSnoc(events, WriteSite(to));
    e := events + [WriteSite(to)];
  }

  lemma Labelled(events: seq<Event>, r: RequestId, key: Key, route: seq<nat>) returns (e: seq<Event>)
    requires Is(Run(events), Run(events).clock, Run(events).now, Run(events).pages, r, Resolving(key, route))
    ensures e == events + [ReadSite(r)] + [ReadGroup(r)]
    ensures var s := Run(events);
            Is(Run(e), s.clock + 2, s.now, s.pages, r, Ready(key, route, s.clock, s.now, s.now)) &&
            Run(e).requests.Keys == s.requests.Keys
  {
    hide Run;
    RunSnoc(events, ReadSite(r));
    RunSnoc(events + [ReadSite(r)], ReadGroup(r));
    e := events + [ReadSite(r)] + [ReadGroup(r)];
  }

  /** With nothing in the cache for it, the page is rendered, with one read, and kept. */
  lemma KeptNow(events: seq<Event>, r: RequestId, key: Key, route: seq<nat>, began: nat,
                now: Seen) returns (e: seq<Event>)
    requires Is(Run(events), Run(events).clock, now, map[], r, Ready(key, route, began, now, now))
    ensures e == events + [Look(r)] + [Query(r)] + [Finish(r, true)]
    ensures var s := Run(events);
            Is(Run(e), s.clock + 3, now, map[key := Page(now, route, [now], s.clock + 2)], r, Rendered) &&
            Run(e).requests.Keys == s.requests.Keys
  {
    hide Run;
    RunSnoc(events, Look(r));
    RunSnoc(events + [Look(r)], Query(r));
    var s := Run(events + [Look(r)] + [Query(r)]);
    assert Is(s, Run(events).clock + 2, now, map[], r, Rendering(key, route, began, now, now, [now]));
    RunSnoc(events + [Look(r)] + [Query(r)], Finish(r, true));
    e := events + [Look(r)] + [Query(r)] + [Finish(r, true)];
  }

  /** The later request is served what the first had read before the write, although nothing was
      written since, and the request itself found the group as it now is. */
  lemma HitMayPrintOldGroup(key: Key, to: nat)
    requires to > 0
    ensures var s, now := Run(Overtaken(key, to)), Seen(to, 0);
            s.now == now && 1 in s.requests && s.requests[1] == Hit(10, now, now, Page(now, [0], [now], 7)) &&
            !Exact(s.requests[1].page, now)
  {
    var now, page := Seen(to, 0), Page(Seen(to, 0), [0], [Seen(to, 0)], 7);
    assert Run([]) == State(0, Seen(0, 0), map[], map[]);
    hide Run, Overtaken, Next;
    var found := Found([], 0, key);
    var written := Written(found, 0, Resolving(key, [0]), to);
    var ready := Labelled(written, 0, key, [0]);
    var kept := KeptNow(ready, 0, key, [0], 3, now);
    var again := Found(kept, 1, key);
    var later := Labelled(again, 1, key, [to]);
    LastLook(later, 1, key, [to], 10, now, page);
    OvertakenIs(key, to, found, written, ready, kept, again, later);
    assert 0 in page.route;
  }

  lemma LastLook(events: seq<Event>, r: RequestId, key: Key, route: seq<nat>, began: nat, now: Seen, page: Page)
    requires Is(Run(events), Run(events).clock, now, map[key := page], r, Ready(key, route, began, now, now)) &&
             page.mark == now
    ensures var s := Run(events + [Look(r)]);
            s.now == now && r in s.requests && s.requests[r] == Hit(began, now, now, page)
  {
    hide Run;
    RunSnoc(events, Look(r));
  }

  lemma OvertakenIs(key: Key, to: nat, found: seq<Event>, written: seq<Event>, ready: seq<Event>, kept: seq<Event>,
                    again: seq<Event>, later: seq<Event>)
    requires found == [] + [Arrive(0, key)] + [Resolve(0)] && written == found + [WriteSite(to)]
    requires ready == written + [ReadSite(0)] + [ReadGroup(0)]
    requires kept == ready + [Look(0)] + [Query(0)] + [Finish(0, true)]
    requires again == kept + [Arrive(1, key)] + [Resolve(1)] && later == again + [ReadSite(1)] + [ReadGroup(1)]
    ensures later + [Look(1)] == Overtaken(key, to)
  {
    assert ready == [Arrive(0, key), Resolve(0), WriteSite(to), ReadSite(0), ReadGroup(0)];
    assert kept == [Arrive(0, key), Resolve(0), WriteSite(to), ReadSite(0), ReadGroup(0), Look(0), Query(0), Finish(0, true)];
  }

  /** The cache never holds more than its limit. */
  lemma CacheIsBounded(events: seq<Event>)
    ensures |Run(events).pages| <= MAX_PAGES
  {
  }

  // ---- The code ----

  class Cache {
    var pages: map<Key, Page>

    constructor ()
      ensures pages == map[]
    {
      pages := map[];
    }

    /** Under the lock: the page, if one was kept at these indexes. */
    method Lookup(key: Key, read: Seen) returns (hit: bool, p: Page)
      ensures hit <==> key in pages && pages[key].mark == read
      ensures hit ==> p == pages[key]
    {
      p := Page(read, [], [], 0);
      hit := false;
      if key in pages {
        p := pages[key];
        hit := p.mark.site == read.site && p.mark.group == read.group;
      }
    }

    /** Under the lock again, after rendering. */
    method Keep(key: Key, p: Page)
      requires |pages| <= MAX_PAGES
      modifies this
      ensures pages == Kept(old(pages), key, p) && |pages| <= MAX_PAGES
    {
      KeptSize(pages, key, p);
      if |pages| >= MAX_PAGES {
        pages := map[];
      }
      pages := pages[key := p];
    }
  }
}
