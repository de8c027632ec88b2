/**
 Bringing a log's Raft membership in line with the node map, one server at a time
 (internal/cluster/shard.go). Raft's own part is assumed: a configuration change either takes
 effect or is refused, and only the leader's requests do.
 */
module Membership {
  import opened Types

  type ServerId = string

  datatype Suffrage = Voter | Nonvoter

  datatype Server = Server(addr: string, suffrage: Suffrage)

  type Config = map<ServerId, Server>

  function Of(c: Config, id: ServerId): Option<Server> {
    if id in c then Some(c[id]) else None
  }

  function Voters(c: Config): set<ServerId> {
    set id | id in c && c[id].suffrage == Voter
  }

  // ---- Majorities ----

  ghost predicate Majority(c: Config, q: set<ServerId>) {
    q <= Voters(c) && 2 * |q| > |Voters(c)|
  }

  /** Nothing but this server's entry differs. */
  ghost predicate SameBut(c: Config, c': Config, id: ServerId) {
    forall other :: other != id ==> Of(c', other) == Of(c, other)
  }

  ghost predicate OneApart(c: Config, c': Config) {
    exists id :: SameBut(c, c', id)
  }

  lemma {:induction false} Overlap<T>(all: set<T>, q: set<T>, r: set<T>)
    requires q <= all && r <= all && |q| + |r| > |all|
    ensures q * r != {}
    decreases |all|
  {
    if q * r == {} {
      assert |q + r| == |q| + |r|;
      SubsetSize(q + r, all);
    }
  }

  /** Main result. Between configurations one server apart, every majority of the old meets every
      majority of the new, so two leaders cannot be elected side by side (section 4.1 of Ongaro's
      dissertation on Raft). */
  lemma MajoritiesMeet(c: Config, c': Config, q: set<ServerId>, r: set<ServerId>)
    requires OneApart(c, c') && Majority(c, q) && Majority(c', r)
    ensures q * r != {}
  {
    var id :| SameBut(c, c', id);
    var common := Voters(c) - {id};
    assert common == Voters(c') - {id} by {
      forall x | x != id ensures x in Voters(c) <==> x in Voters(c') {
        assert Of(c', x) == Of(c, x);
      }
    }
    var all := Voters(c) + Voters(c');
    assert all <= common + {id};
    if id in Voters(c) { assert Voters(c) == common + {id}; } else { assert Voters(c) == common; }
    if id in Voters(c') { assert Voters(c') == common + {id}; } else { assert Voters(c') == common; }
    if id in Voters(c) || id in Voters(c') { assert all == common + {id}; } else { assert all == common; }
    Overlap(all, q, r);
  }

  // ---- What a pass does to one server ----

  /** The change a pass asks Raft for, given what it saw and what the map wants. */
  datatype Request = Nothing | AddNonvoter(addr: string) | AddVoter(addr: string) | DemoteVoter | RemoveServer

  function Asked(have: Option<Server>, want: Option<Server>, caughtUp: bool): Request {
    match want
    case None => if have.None? then Nothing else RemoveServer
    case Some(w) =>
      if have.None? || (have.value.addr != w.addr && have.value.suffrage != Voter) then AddNonvoter(w.addr)
      else if have.value.addr != w.addr then AddVoter(w.addr)
      else if w.suffrage == Voter && have.value.suffrage != Voter then (if caughtUp then AddVoter(w.addr) else Nothing)
      else if w.suffrage != Voter && have.value.suffrage == Voter then DemoteVoter
      else Nothing
  }

  /** What Raft makes of it. Adding a voter as a non-voter only updates its address. */
  function Changed(s: Option<Server>, r: Request): Option<Server> {
    match r
    case Nothing => s
    case AddNonvoter(addr) =>
      if s.Some? && s.value.suffrage == Voter then Some(Server(addr, Voter)) else Some(Server(addr, Nonvoter))
    case AddVoter(addr) => Some(Server(addr, Voter))
    case DemoteVoter => if s.Some? then Some(s.value.(suffrage := Nonvoter)) else None
    case RemoveServer => None
  }

  /** How a node answers during a pass: whether Raft takes the change, and whether the node has
      caught up with the log. */
  datatype Answer = Answer(taken: bool, caughtUp: bool)

  function Pass(have: Option<Server>, want: Option<Server>, a: Answer): Option<Server> {
    if a.taken then Changed(have, Asked(have, want, a.caughtUp)) else have
  }

  /** How many successful passes a server is from what the map wants. */
  function Distance(have: Option<Server>, want: Option<Server>): nat {
    match want
    case None => if have.None? then 0 else 1
    case Some(w) =>
      if have.None? then (if w.suffrage == Voter then 2 else 1)
      else (if have.value.addr != w.addr then 1 else 0) + (if have.value.suffrage != w.suffrage then 1 else 0)
  }

  /** A pass never moves a server away from what is wanted, and one that succeeds moves it closer. */
  lemma PassApproaches(have: Option<Server>, want: Option<Server>, a: Answer)
    ensures Distance(have, want) == 0 <==> have == want
    ensures Distance(Pass(have, want, a), want) <= Distance(have, want) <= 2
    ensures a.taken && a.caughtUp && have != want ==> Distance(Pass(have, want, a), want) == Distance(have, want) - 1
  {
  }

  function Passes(have: Option<Server>, want: Option<Server>, answers: seq<Answer>): Option<Server> {
    if answers == [] then have else Pass(Passes(have, want, answers[..|answers| - 1]), want, answers[|answers| - 1])
  }

  function Successes(answers: seq<Answer>): nat {
    if answers == [] then 0 else
      Successes(answers[..|answers| - 1]) + if answers[|answers| - 1].taken && answers[|answers| - 1].caughtUp then 1 else 0
  }

  lemma {:induction false} PassesApproach(have: Option<Server>, want: Option<Server>, answers: seq<Answer>)
    ensures Distance(Passes(have, want, answers), want) <= 2
    ensures Distance(Passes(have, want, answers), want) + Successes(answers) <= 2 || Passes(have, want, answers) == want
  {
    PassApproaches(have, want, Answer(false, false));
    if answers != [] {
      var before := Passes(have, want, answers[..|answers| - 1]);
      PassesApproach(have, want, answers[..|answers| - 1]);
      PassApproaches(before, want, answers[|answers| - 1]);
    }
  }

  /** Main result. Whatever fails in between, two passes in which a server's change is taken and it
      has caught up bring it to the address and vote the node map wants, and there it stays. */
  lemma TwoSuccessesReachTheMap(have: Option<Server>, want: Option<Server>, answers: seq<Answer>)
    requires Successes(answers) >= 2
    ensures Passes(have, want, answers) == want
  {
    PassesApproach(have, want, answers);
    PassApproaches(Passes(have, want, answers), want, Answer(false, false));
  }

  /** A node gets a vote only once it has caught up, unless it had one already. */
  lemma NoVoteBeforeCatchingUp(have: Option<Server>, want: Option<Server>, a: Answer)
    requires Pass(have, want, a).Some? && Pass(have, want, a).value.suffrage == Voter
    ensures (have.Some? && have.value.suffrage == Voter) || a.caughtUp
  {
  }

  // ---- A whole configuration, pass after pass ----

  /** What one pass makes of a configuration: nothing if the map does not want the leader; otherwise
      every server but the leader goes through the pass. */
  ghost predicate AfterPass(self: ServerId, c: Config, want: Config, answer: ServerId -> Answer, c': Config) {
    if self !in want then c' == c
    else forall id :: id != self ==> Of(c', id) == Pass(Of(c, id), Of(want, id), answer(id))
  }

  /** Passes one after another, by the same leader and for the same map. */
  ghost predicate PassByPass(self: ServerId, want: Config, configs: seq<Config>, answers: seq<ServerId -> Answer>) {
    && |configs| == |answers| + 1
    && forall i | 0 <= i < |answers| :: AfterPass(self, configs[i], want, answers[i], configs[i + 1])
  }

  function AnswersOf(answers: seq<ServerId -> Answer>, id: ServerId): seq<Answer> {
    seq(|answers|, i requires 0 <= i < |answers| => answers[i](id))
  }

  lemma {:induction false} EachGoesItsWay(self: ServerId, want: Config, configs: seq<Config>,
                                          answers: seq<ServerId -> Answer>, id: ServerId)
    requires PassByPass(self, want, configs, answers) && self in want && id != self
    ensures Of(configs[|answers|], id) == Passes(Of(configs[0], id), Of(want, id), AnswersOf(answers, id))
    decreases |answers|
  {
    if answers != [] {
      var n := |answers| - 1;
      EachGoesItsWay(self, want, configs[..n + 1], answers[..n], id);
      assert AnswersOf(answers, id)[..n] == AnswersOf(answers[..n], id);
      assert AfterPass(self, configs[n], want, answers[n], configs[n + 1]);
    }
  }

  /** Main result. Whatever fails in between: once each server has had two passes in which its change
      was taken and it had caught up, the configuration is what the map wants, for every id but the
      leader's own, which no pass changes. */
  lemma PassesReachTheMap(self: ServerId, want: Config, configs: seq<Config>, answers: seq<ServerId -> Answer>)
    requires PassByPass(self, want, configs, answers) && self in want
    requires forall id :: id != self ==> Successes(AnswersOf(answers, id)) >= 2
    ensures forall id :: id != self ==> Of(configs[|answers|], id) == Of(want, id)
  {
    forall id | id != self ensures Of(configs[|answers|], id) == Of(want, id) {
      EachGoesItsWay(self, want, configs, answers, id);
      TwoSuccessesReachTheMap(Of(configs[0], id), Of(want, id), AnswersOf(answers, id));
    }
  }

  // ---- The code ----

  datatype Row = Row(id: ServerId, addr: string, voter: bool)

  /** Who the rows of the map put in the log: for each id its last row. */
  function Wanted(rows: seq<Row>): Config {
    if rows == [] then map[] else
      var r := rows[|rows| - 1];
      Wanted(rows[..|rows| - 1])[r.id := Server(r.addr, if r.voter then Voter else Nonvoter)]
  }

  /** wantMembers: nothing at all when no row has a vote. */
  method WantMembers(rows: seq<Row>) returns (want: Config)
    ensures want == if exists r <- rows :: r.voter then Wanted(rows) else map[]
  {
    want := map[];
    var voters := 0;
    for i := 0 to |rows|
      invariant want == Wanted(rows[..i])
      invariant voters >= 0 && (voters > 0 <==> exists k | 0 <= k < i :: rows[k].voter)
    {
      assert rows[..i + 1][..i] == rows[..i];
      var sf := Nonvoter;
      if rows[i].voter {
        sf := Voter;
        voters := voters + 1;
      }
      want := want[rows[i].id := Server(rows[i].addr, sf)];
    }
    assert rows[..|rows|] == rows;
    if voters == 0 {
      return map[];
    }
  }

  /** Every configuration the log has gone through, one server apart each time, the leader's own
      entry never touched. */
  ghost predicate Walked(self: ServerId, steps: seq<Config>, from: Config, to: Config) {
    && |steps| > 0 && steps[0] == from && steps[|steps| - 1] == to
    && (forall i | 0 < i < |steps| :: OneApart(steps[i - 1], steps[i]))
    && (forall c <- steps :: Of(c, self) == Of(from, self))
  }

  lemma WalkOn(self: ServerId, steps: seq<Config>, from: Config, c: Config, c': Config, id: ServerId)
    requires Walked(self, steps, from, c) && id != self
    requires SameBut(c, c', id)
    ensures Walked(self, steps + [c'], from, c')
  {
  }

  /** One log's Raft, as its leader sees it. */
  class Raft {
    var config: Config
    ghost var steps: seq<Config>

    constructor (config: Config)
      ensures this.config == config && steps == [config]
    {
      this.config := config;
      steps := [config];
    }

    /** A configuration change: taken, or refused and nothing happens. */
    method Change(ghost self: ServerId, ghost from: Config, id: ServerId, r: Request, taken: bool)
      requires Walked(self, steps, from, config) && id != self
      modifies this
      ensures Walked(self, steps, from, config)
      ensures Of(config, id) == if taken then Changed(Of(old(config), id), r) else Of(old(config), id)
      ensures SameBut(old(config), config, id)
    {
      if taken {
        var s := Changed(Of(config, id), r);
        ghost var was := config;
        config := if s.Some? then config[id := s.value] else config - {id};
        WalkOn(self, steps, from, was, config, id);
        steps := steps + [config];
      }
    }

    /** One server's turn in a pass. */
    method Turn(ghost self: ServerId, ghost from: Config, want: Config, answer: ServerId -> Answer,
                ghost done: set<ServerId>,
                have: Option<Server>, id: ServerId)
      requires Underway(self, steps, from, want, answer, done, config)
      requires id != self && id !in done && have == Of(from, id)
      modifies this
      ensures Underway(self, steps, from, want, answer, done + {id}, config)
    {
      hide Walked;
      var a := answer(id);
      Change(self, from, id, Asked(have, Of(want, id), a.caughtUp), a.taken);
    }

    /** A turn for each of these servers. */
    method Turns(self: ServerId, have: Config, want: Config, answer: ServerId -> Answer, ghost done: set<ServerId>,
                 ids: set<ServerId>)
      requires Underway(self, steps, have, want, answer, done, config) && ids !! done && self !in ids
      modifies this
      ensures Underway(self, steps, have, want, answer, done + ids, config)
    {
      hide Underway;
      var todo := ids;
      ghost var now := done;
      while todo != {}
        invariant Underway(self, steps, have, want, answer, now, config)
        invariant now == done + (ids - todo) && todo <= ids
        decreases |todo|
      {
        var id :| id in todo;
        todo := todo - {id};
        Turn(self, have, want, answer, now, Of(have, id), id);
        now := now + {id};
      }
      assert now == done + ids;
    }

    /** reconcileMembers: one pass over the map, in whatever order it is walked, and then over the
        servers the map does not want. */
    method Reconcile(self: ServerId, want: Config, answer: ServerId -> Answer)
      modifies this
      ensures AfterPass(self, old(config), want, answer, config)
      ensures Walked(self, steps, old(config), config)
    {
      var have := config;
      steps := [config];
      if self !in want {
        return; // the map does not want this leader: leave all as it is
      }
      Turns(self, have, want, answer, {}, want.Keys - {self});
      Turns(self, have, want, answer, want.Keys - {self}, have.Keys - want.Keys - {self});
      AllSettled(self, have, want, answer, want.Keys - {self} + (have.Keys - want.Keys - {self}), config);
    }
  }

  /** A pass under way: where it has walked, and what it has settled. The comparison with true keeps
      it in one piece for the verifier, which would else take the conjuncts apart at every call. */
  ghost predicate Underway(self: ServerId, steps: seq<Config>, from: Config, want: Config, answer: ServerId -> Answer,
                           done: set<ServerId>, c: Config) {
    (Walked(self, steps, from, c) && Settled(from, want, answer, done, c)) == true
  }

  /** The servers whose turn has come have been through the pass, and no others are touched. */
  ghost predicate Settled(from: Config, want: Config, answer: ServerId -> Answer, done: set<ServerId>, c: Config) {
    forall id :: Of(c, id) == if id in done then Pass(Of(from, id), Of(want, id), answer(id)) else Of(from, id)
  }

  lemma AllSettled(self: ServerId, from: Config, want: Config, answer: ServerId -> Answer, done: set<ServerId>,
                   c: Config)
    requires Settled(from, want, answer, done, c)
    requires forall id :: (id in want || id in from) && id != self ==> id in done
    ensures forall id :: id != self ==> Of(c, id) == Pass(Of(from, id), Of(want, id), answer(id))
  {
  }

  /** The log is never left without a voter: its leader, which has a vote, keeps it throughout. */
  lemma LeaderKeepsItsVote(self: ServerId, steps: seq<Config>, from: Config, to: Config, i: nat)
    requires Walked(self, steps, from, to) && self in Voters(from) && i < |steps|
    ensures self in Voters(steps[i]) && self in steps[i] && steps[i][self].suffrage == Voter
  {
    assert steps[i] in steps;
  }

  /** And through every step of a pass, majorities meet. */
  lemma MajoritiesMeetAllAlong(self: ServerId, steps: seq<Config>, from: Config, to: Config, i: nat, q: set<ServerId>,
                               r: set<ServerId>)
    requires Walked(self, steps, from, to) && i + 1 < |steps| && Majority(steps[i], q) && Majority(steps[i + 1], r)
    ensures q * r != {}
  {
    assert OneApart(steps[i + 1 - 1], steps[i + 1]);
    MajoritiesMeet(steps[i], steps[i + 1], q, r);
  }
}
