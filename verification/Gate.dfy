/**
 The gate in front of the model: one call at a time, and background jobs only while nobody is
 searching (internal/ai/gate.go). Callers wait on a condition variable; each event below is one
 stretch of code under the gate's mutex, and they come in any order.
 */
module Gate {

  type Caller = nat

  /** Where a caller is: not in the gate, about to look at it (again), asleep until the next
      broadcast, or in the model. interactive: it belongs to a search. */
  datatype Phase = Outside | Awake(interactive: bool) | Asleep(interactive: bool) | Inside(interactive: bool)

  /** ended: callers whose context has ended. alarms: those of them whose wake-up call, which runs
      beside them, has not broadcast yet. */
  datatype State = State(busy: bool, searches: nat, phases: map<Caller, Phase>, ended: set<Caller>, alarms: set<Caller>)

  function PhaseOf(s: State, c: Caller): Phase {
    if c in s.phases then s.phases[c] else Outside
  }

  datatype Event =
    | Enter(c: Caller, interactive: bool)  // enter is called, and arms the alarm
    | Look(c: Caller)                      // one turn of the loop in enter
    | Leave(c: Caller)
    | SearchStart
    | SearchDone
    | End(c: Caller)                       // the caller's context ends
    | Alarm(c: Caller)                     // the alarm broadcasts

  /** Why a caller has to wait. */
  predicate Blocked(s: State, interactive: bool) {
    s.busy || (!interactive && s.searches > 0)
  }

  function Broadcast(phases: map<Caller, Phase>): map<Caller, Phase> {
    map c | c in phases :: if phases[c].Asleep? then Awake(phases[c].interactive) else phases[c]
  }

  /** One turn of the loop in enter: give up if the context has ended, sleep if blocked, or go in. */
  function Turn(s: State, c: Caller, interactive: bool): State {
    if c in s.ended then s.(phases := s.phases[c := Outside])
    else if Blocked(s, interactive) then s.(phases := s.phases[c := Asleep(interactive)])
    else s.(busy := true, phases := s.phases[c := Inside(interactive)])
  }

  /** An event that cannot happen leaves things as they are. */
  function Next(s: State, e: Event): State {
    match e
    case Enter(c, interactive) =>
      if PhaseOf(s, c).Outside? then
        s.(phases := s.phases[c := Awake(interactive)], alarms := if c in s.ended then s.alarms + {c} else s.alarms)
      else s
    case Look(c) => if PhaseOf(s, c).Awake? then Turn(s, c, PhaseOf(s, c).interactive) else s
    case Leave(c) =>
      if PhaseOf(s, c).Inside? then s.(busy := false, phases := Broadcast(s.phases[c := Outside])) else s
    case SearchStart => s.(searches := s.searches + 1)
    case SearchDone => if s.searches > 0 then s.(searches := s.searches - 1, phases := Broadcast(s.phases)) else s
    case End(c) =>
      s.(ended := s.ended + {c},
         alarms := if PhaseOf(s, c).Awake? || PhaseOf(s, c).Asleep? then s.alarms + {c} else s.alarms)
    case Alarm(c) => if c in s.alarms then s.(alarms := s.alarms - {c}, phases := Broadcast(s.phases)) else s
  }

  function Run(events: seq<Event>): State {
    if events == [] then State(false, 0, map[], {}, {}) else Next(Run(events[..|events| - 1]), events[|events| - 1])
  }

  // ---- What always holds ----

  /** busy says whether somebody is in the model, and nobody ever shares it. */
  ghost predicate OneInside(s: State) {
    && (forall c | PhaseOf(s, c).Inside? :: s.busy)
    && (s.busy ==> exists c :: PhaseOf(s, c).Inside?)
    && (forall c, d | PhaseOf(s, c).Inside? && PhaseOf(s, d).Inside? :: c == d)
  }

  /** Nobody sleeps through what they wait for: a sleeper is still blocked, and if its context has
      ended, its alarm is still to come. */
  ghost predicate NoneForgotten(s: State) {
    forall c | PhaseOf(s, c).Asleep? :: Blocked(s, PhaseOf(s, c).interactive) && (c in s.ended ==> c in s.alarms)
  }

  lemma OneInsideStep(s: State, e: Event)
    requires OneInside(s)
    ensures OneInside(Next(s, e))
  {
    var s' := Next(s, e);
    forall c ensures PhaseOf(s', c).Inside? && !PhaseOf(s, c).Inside? ==> e == Look(c) && !s.busy && s'.busy {}
    if s.busy {
      var c :| PhaseOf(s, c).Inside?;
      assert e != Leave(c) ==> PhaseOf(s', c).Inside?;
    } else if e.Look? && s'.busy {
      assert PhaseOf(s', e.c).Inside?;
    }
  }

  lemma NoneForgottenStep(s: State, e: Event)
    requires NoneForgotten(s)
    ensures NoneForgotten(Next(s, e))
  {
    var s' := Next(s, e);
    forall c | PhaseOf(s', c).Asleep?
      ensures Blocked(s', PhaseOf(s', c).interactive) && (c in s'.ended ==> c in s'.alarms)
    {
      if PhaseOf(s, c).Asleep? { assert Blocked(s, PhaseOf(s, c).interactive); }
    }
  }

  /** Main result: in every run, at most one call is in the model, and no wake-up is lost. */
  lemma {:induction false} AlwaysSafe(events: seq<Event>)
    ensures OneInside(Run(events)) && NoneForgotten(Run(events))
  {
    hide OneInside, NoneForgotten, Next;
    if events != [] {
      AlwaysSafe(events[..|events| - 1]);
      OneInsideStep(Run(events[..|events| - 1]), events[|events| - 1]);
      NoneForgottenStep(Run(events[..|events| - 1]), events[|events| - 1]);
    } else {
      StartSafe();
    }
  }

  lemma StartSafe()
    ensures OneInside(State(false, 0, map[], {}, {})) && NoneForgotten(State(false, 0, map[], {}, {}))
  {
  }

  /** Nobody waits for nothing: while a caller sleeps, somebody is in the model and will leave, or
      a search is open and will be done; either wakes it. */
  lemma SleepersAreWokenLater(events: seq<Event>, c: Caller)
    requires PhaseOf(Run(events), c).Asleep?
    ensures (exists d :: d != c && PhaseOf(Run(events), d).Inside? && PhaseOf(Next(Run(events), Leave(d)), c).Awake?) ||
            (Run(events).searches > 0 && PhaseOf(Next(Run(events), SearchDone), c).Awake?)
  {
    AlwaysSafe(events);
    var s := Run(events);
    assert Blocked(s, PhaseOf(s, c).interactive);
    if s.busy {
      var d :| PhaseOf(s, d).Inside?;
      assert PhaseOf(Next(s, Leave(d)), c).Awake?;
    }
  }

  /** A call starts only when the model is free, and a background call only when no search is open. */
  lemma StartsOnlyWhenFree(s: State, e: Event, c: Caller)
    requires !PhaseOf(s, c).Inside? && PhaseOf(Next(s, e), c).Inside?
    ensures !s.busy && c !in s.ended
    ensures !PhaseOf(Next(s, e), c).interactive ==> s.searches == 0
  {
  }

  /** And then it does, at its next look. */
  lemma StartsWhenFreeIff(s: State, c: Caller)
    requires PhaseOf(s, c).Awake? && c !in s.ended
    ensures var interactive := PhaseOf(s, c).interactive;
            PhaseOf(Next(s, Look(c)), c) == Inside(interactive) <==> !s.busy && (interactive || s.searches == 0)
  {
  }

  /** Callers stay what they came as, the open searches are those started and not done, an alarm is armed when
      a waiting caller's context ends or an ended one comes, and goes off once, waking everyone. */
  lemma CallersAndSearches(s: State, e: Event, c: Caller)
    ensures var s' := Next(s, e);
            && s'.searches == (match e
                               case SearchStart => s.searches + 1
                               case SearchDone => if s.searches == 0 then 0 else s.searches - 1
                               case _ => s.searches)
            && (!PhaseOf(s, c).Outside? && !PhaseOf(s', c).Outside? ==>
                  PhaseOf(s', c).interactive == PhaseOf(s, c).interactive)
            && (e.Enter? && e.c == c && PhaseOf(s, c).Outside? ==> PhaseOf(s', c) == Awake(e.interactive))
            && (e.Leave? && e.c == c && PhaseOf(s, c).Inside? ==> PhaseOf(s', c).Outside?)
            && (c in s'.alarms <==>
                  if e == Alarm(c) then false
                  else c in s.alarms || (e == End(c) && (PhaseOf(s, c).Awake? || PhaseOf(s, c).Asleep?)) ||
                       (e.Enter? && e.c == c && PhaseOf(s, c).Outside? && c in s.ended))
            && (e.Alarm? && e.c in s.alarms ==> !PhaseOf(s', c).Asleep?)
  {
  }

  /** A waiter whose context has ended gives up at its next look, and changes nothing for anyone. */
  lemma GivingUpChangesNothing(s: State, c: Caller)
    requires PhaseOf(s, c).Awake? && c in s.ended
    ensures var s' := Next(s, Look(c));
            PhaseOf(s', c).Outside? && s'.busy == s.busy && s'.searches == s.searches && s'.alarms == s.alarms &&
            forall d :: d != c ==> PhaseOf(s', d) == PhaseOf(s, d)
  {
  }

  // ---- Everyone gets in ----

  lemma RunThen(events: seq<Event>, e: Event)
    ensures Run(events + [e]) == Next(Run(events), e)
  {
    assert (events + [e])[..|events|] == events;
  }

  /** Once whoever is in the model has left, and the searches are done, and nobody else looked first, a
      caller that still waits goes in. */
  lemma {:induction false} EveryoneGetsIn(events: seq<Event>, c: Caller) returns (more: seq<Event>)
    requires (PhaseOf(Run(events), c).Awake? || PhaseOf(Run(events), c).Asleep?) && c !in Run(events).ended
    ensures forall e <- more :: e.Leave? || e == SearchDone || e == Look(c)
    ensures PhaseOf(Run(events + more), c) == Inside(PhaseOf(Run(events), c).interactive)
    decreases if Run(events).busy then 1 else 0, Run(events).searches, if PhaseOf(Run(events), c).Asleep? then 1 else 0
  {
    var s := Run(events);
    AlwaysSafe(events);
    if Blocked(s, PhaseOf(s, c).interactive) {
      var e := SearchDone;
      if s.busy {
        var d :| PhaseOf(s, d).Inside?;
        e := Leave(d);
      }
      RunThen(events, e);
      var rest := EveryoneGetsIn(events + [e], c);
      more := [e] + rest;
      assert events + more == events + [e] + rest;
    } else {
      assert PhaseOf(s, c).Awake?;
      more := [Look(c)];
      RunThen(events, Look(c));
    }
  }

  // ---- The code ----

  datatype Outcome = Entered | Waits | Ended

  class Mutexed {
    var busy: bool
    var searches: nat

    constructor ()
      ensures !busy && searches == 0
    {
      busy, searches := false, 0;
    }

    /** One turn of the loop in enter, for a caller whose context has ended or not. */
    method Attempt(ghost s: State, ghost c: Caller, interactive: bool, ended: bool) returns (r: Outcome)
      requires s.busy == busy && s.searches == searches && PhaseOf(s, c) == Awake(interactive) &&
               (ended <==> c in s.ended)
      modifies this
      ensures var s' := Next(s, Look(c));
              s'.busy == busy && s'.searches == searches && searches == old(searches) &&
              PhaseOf(s', c) == match r case Entered => Inside(interactive) case Waits => Asleep(interactive) case Ended => Outside
    {
      if busy || (!interactive && searches > 0) {
        if ended {
          return Ended;
        }
        return Waits;
      }
      if ended {
        return Ended;
      }
      busy := true;
      return Entered;
    }

    method Leave(ghost s: State, ghost c: Caller)
      requires s.busy == busy && s.searches == searches && PhaseOf(s, c).Inside?
      modifies this
      ensures var s' := Next(s, Event.Leave(c)); s'.busy == busy && s'.searches == searches
    {
      busy := false;
    }

    method Start(ghost s: State)
      requires s.busy == busy && s.searches == searches
      modifies this
      ensures var s' := Next(s, SearchStart); s'.busy == busy && s'.searches == searches
    {
      searches := searches + 1;
    }

    method Done(ghost s: State)
      requires s.busy == busy && s.searches == searches && searches > 0
      modifies this
      ensures var s' := Next(s, SearchDone); s'.busy == busy && s'.searches == searches
    {
      searches := searches - 1;
    }

    /** load: nothing is in progress exactly when it is 0. */
    method Load() returns (n: nat)
      ensures n == 0 <==> !busy && searches == 0
      ensures searches > 0 ==> n == searches
      ensures searches == 0 ==> n <= 1
    {
      n := searches;
      if busy && n == 0 {
        n := 1;
      }
    }
  }
}
