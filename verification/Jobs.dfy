/**
 The AI job queue of one group: leases, debouncing and retry (internal/cmd/jobs.go).

 A job's row is found by what it is for (its kind and the item it is about), which is unique.
 Times are seconds.
 */
module Jobs {
  import opened Types

  type Id = nat

  datatype JobKind = Check | Digest | Summary | Note | CheckComment

  datatype JobKey = JobKey(kind: JobKind, ref: Id)

  datatype Job = Job(
    refVersion: nat,
    runAfter: int,
    pendingSince: int,
    attempts: nat,
    claimedBy: Option<string>,
    leaseUntil: Option<int>,
    doneAt: Option<int>,
    lastRunAt: Option<int>,
    lastError: Option<string>)

  type Queue = map<JobKey, Job>

  const QUIET_PERIOD := 15 * 60
  const MIN_RERUN := 60 * 60
  const MAX_WAIT := 2 * 60 * 60
  const JOB_LEASE := 5 * 60
  const MAX_ATTEMPTS: nat := 5

  function Min(a: int, b: int): int { if a <= b then a else b }

  function Max(a: int, b: int): int { if a <= b then b else a }

  /** The upsert of schedule, on one row. */
  function Scheduled(was: Option<Job>, version: nat, runAfter: int, at: int): Job {
    match was
    case None => Job(version, runAfter, at, 0, None, None, None, None, None)
    case Some(j) =>
      j.(refVersion := version,
         attempts := 0,
         lastError := None,
         pendingSince := if j.doneAt.None? then j.pendingSince else at,
         runAfter := if j.doneAt.None? then Min(runAfter, j.pendingSince + MAX_WAIT)
                     else Max(runAfter, (if j.lastRunAt.Some? then j.lastRunAt.value else 0) + MIN_RERUN),
         doneAt := None)
  }

  function Find(q: Queue, k: JobKey): Option<Job> {
    if k in q then Some(q[k]) else None
  }

  function Schedule(q: Queue, k: JobKey, version: nat, runAfter: int, at: int): Queue {
    q[k := Scheduled(Find(q, k), version, runAfter, at)]
  }

  /** ClaimJob's guard: waiting, due, and not leased to anyone. */
  predicate Claimable(q: Queue, k: JobKey, at: int) {
    k in q && q[k].doneAt.None? && q[k].runAfter <= at && (q[k].leaseUntil.Some? ==> q[k].leaseUntil.value < at)
  }

  function Claim(q: Queue, k: JobKey, worker: string, at: int): Queue {
    if Claimable(q, k, at) then
      q[k := q[k].(claimedBy := Some(worker), leaseUntil := Some(at + JOB_LEASE), attempts := q[k].attempts + 1)]
    else q
  }

  /** Whether a job's claimer has this name. No claimer reads as the empty name. */
  predicate HeldBy(q: Queue, k: JobKey, worker: string) {
    k in q && (match q[k].claimedBy case Some(w) => w == worker case None => worker == "")
  }

  function Fail(q: Queue, k: JobKey, worker: string, error: string, at: int): Queue {
    if !HeldBy(q, k, worker) then q
    else if q[k].attempts >= MAX_ATTEMPTS then
      q[k := q[k].(claimedBy := None, leaseUntil := None, doneAt := Some(at), lastError := Some(error))]
    else
      q[k := q[k].(claimedBy := None, leaseUntil := None,
                   runAfter := at + q[k].attempts * q[k].attempts * 60, lastError := Some(error))]
  }

  /** Whether finishJob accepts a result. */
  predicate Accepts(q: Queue, k: JobKey, worker: string, version: nat, current: nat) {
    HeldBy(q, k, worker) && version == current
  }

  function Finish(q: Queue, k: JobKey, worker: string, version: nat, current: nat, at: int): Queue {
    if !HeldBy(q, k, worker) then q
    else if version != current then q[k := q[k].(claimedBy := None, leaseUntil := None)]
    else q[k := q[k].(claimedBy := None, leaseUntil := None, doneAt := Some(at), lastRunAt := Some(at), lastError := None)]
  }

  // ---- Runs ----

  /** What can happen to a group's queue. Finish carries the content's version at that moment;
      Drop is the purge of a job whose item is gone. */
  datatype Event =
    | EvSchedule(key: JobKey, version: nat, runAfter: int, at: int)
    | EvClaim(key: JobKey, worker: string, at: int)
    | EvFail(key: JobKey, worker: string, error: string, at: int)
    | EvFinish(key: JobKey, worker: string, version: nat, current: nat, at: int)
    | EvDrop(key: JobKey)

  function Next(q: Queue, e: Event): Queue {
    match e
    case EvSchedule(k, version, runAfter, at) => Schedule(q, k, version, runAfter, at)
    case EvClaim(k, worker, at) => Claim(q, k, worker, at)
    case EvFail(k, worker, error, at) => Fail(q, k, worker, error, at)
    case EvFinish(k, worker, version, current, at) => Finish(q, k, worker, version, current, at)
    case EvDrop(k) => q - {k}
  }

  function Run(events: seq<Event>): Queue {
    if events == [] then map[] else Next(Run(events[..|events| - 1]), events[|events| - 1])
  }

  // ---- Leases ----

  /** A claim that succeeds. */
  predicate Claims(q: Queue, e: Event, k: JobKey) {
    e.EvClaim? && e.key == k && Claimable(q, k, e.at)
  }

  /** The claim on k is given up: the holder finished or failed, or the job was dropped. */
  predicate Releases(q: Queue, e: Event, k: JobKey) {
    e.key == k && match e
      case EvFail(_, worker, _, _) => HeldBy(q, k, worker)
      case EvFinish(_, worker, _, _, _) => HeldBy(q, k, worker)
      case EvDrop(_) => true
      case _ => false
  }

  /** From just after event i to just before event j, nothing releases k. */
  ghost predicate HeldThroughout(events: seq<Event>, k: JobKey, i: nat, j: nat)
    requires i < j <= |events|
  {
    forall m | i < m < j :: !Releases(Run(events[..m]), events[m], k)
  }

  lemma RunSplit(events: seq<Event>, m: nat)
    requires m < |events|
    ensures Run(events[..m + 1]) == Next(Run(events[..m]), events[m])
  {
    assert events[..m + 1][..m] == events[..m];
  }

  predicate Leased(q: Queue, k: JobKey, worker: string, until: int) {
    k in q && q[k].leaseUntil == Some(until) && q[k].claimedBy == Some(worker)
  }

  lemma LeaseStep(q: Queue, e: Event, k: JobKey, worker: string, until: int)
    requires Leased(q, k, worker, until) && !Claims(q, e, k) && !Releases(q, e, k)
    ensures Leased(Next(q, e), k, worker, until)
  {
  }

  lemma ClaimLeases(q: Queue, e: Event, k: JobKey)
    requires Claims(q, e, k)
    ensures Leased(Next(q, e), k, e.worker, e.at + JOB_LEASE)
  {
  }

  /** While nobody releases a claim, its lease only moves when it is claimed again. */
  lemma {:induction false} LeaseStands(events: seq<Event>, k: JobKey, i: nat, j: nat)
    requires i < j <= |events|
    requires Claims(Run(events[..i]), events[i], k) && HeldThroughout(events, k, i, j)
    requires forall m | i < m < j :: !Claims(Run(events[..m]), events[m], k)
    ensures Leased(Run(events[..j]), k, events[i].worker, events[i].at + JOB_LEASE)
    decreases j
  {
    hide Run, Next, Releases, Leased, Claimable;
    RunSplit(events, j - 1);
    if i == j - 1 {
      ClaimLeases(Run(events[..i]), events[i], k);
    } else {
      LeaseStands(events, k, i, j - 1);
      LeaseStep(Run(events[..j - 1]), events[j - 1], k, events[i].worker, events[i].at + JOB_LEASE);
    }
  }

  /** Main result. Two successful claims of a job with no release between them are more than a
      lease apart, whatever the clocks of the other events say. */
  lemma {:induction false} ClaimsAreALeaseApart(events: seq<Event>, k: JobKey, i: nat, j: nat)
    requires i < j < |events|
    requires Claims(Run(events[..i]), events[i], k) && Claims(Run(events[..j]), events[j], k)
    requires HeldThroughout(events, k, i, j)
    ensures events[j].at > events[i].at + JOB_LEASE
    decreases j - i
  {
    if m :| i < m < j && Claims(Run(events[..m]), events[m], k) {
      ClaimsAreALeaseApart(events, k, i, m);
      ClaimsAreALeaseApart(events, k, m, j);
    } else {
      LeaseStands(events, k, i, j);
    }
  }

  /** Only the current claimer closes a job: with a result for the current version, or by giving
      up after the last attempt. (A worker without a name counts as holding unclaimed jobs.) */
  lemma OnlyTheClaimerCloses(q: Queue, e: Event, k: JobKey)
    requires k in q && k in Next(q, e)
    requires q[k].doneAt.None? && Next(q, e)[k].doneAt.Some?
    ensures e.key == k
    ensures (e.EvFinish? && Accepts(q, k, e.worker, e.version, e.current)) ||
            (e.EvFail? && HeldBy(q, k, e.worker) && q[k].attempts >= MAX_ATTEMPTS)
    ensures e.worker != "" ==> q[k].claimedBy == Some(e.worker)
  {
  }

  // ---- Asking for work ----

  /** Whoever asks for a job reopens it for the version it names, with all its tries. A new one is due when it
      is asked for; one that waits is not put off past two hours after it began to; one that was done is
      not done again within the hour. */
  lemma ScheduleIs(q: Queue, k: JobKey, version: nat, runAfter: int, at: int)
    ensures var r := Schedule(q, k, version, runAfter, at);
            && r.Keys == q.Keys + {k} && (forall j <- q | j != k :: r[j] == q[j])
            && r[k].refVersion == version && r[k].doneAt.None? && r[k].attempts == 0 && r[k].lastError.None?
            && if k !in q then r[k] == Job(version, runAfter, at, 0, None, None, None, None, None)
               else
                 && r[k].claimedBy == q[k].claimedBy && r[k].leaseUntil == q[k].leaseUntil
                 && r[k].lastRunAt == q[k].lastRunAt
                 && r[k].pendingSince == (if q[k].doneAt.None? then q[k].pendingSince else at)
                 && var bound := if q[k].doneAt.None? then q[k].pendingSince + 7200
                                 else (match q[k].lastRunAt case Some(t) => t + 3600 case None => 3600);
                    r[k].runAfter == if q[k].doneAt.None? == (runAfter <= bound) then runAfter else bound
  {
  }

  // ---- Failing ----

  /** A job that fails is released; it waits a minute, then 4, 9 and 16, and after the fifth try is closed. */
  lemma FailIs(q: Queue, k: JobKey, worker: string, error: string, at: int)
    requires HeldBy(q, k, worker)
    ensures var was, r := q[k], Fail(q, k, worker, error, at);
            k in r && r == q[k := was.(claimedBy := None, leaseUntil := None, lastError := Some(error),
                                      runAfter := r[k].runAfter, doneAt := r[k].doneAt)] &&
            if was.attempts >= 5 then r[k].doneAt == Some(at) && r[k].runAfter == was.runAfter
            else r[k].doneAt == was.doneAt && r[k].runAfter == at + was.attempts * was.attempts * 60
  {
  }

  /** The job after a worker claimed it, and failed, at each of these times. */
  function AfterFailures(q: Queue, k: JobKey, worker: string, error: string, times: seq<int>): Queue {
    if times == [] then q else
      var t := times[|times| - 1];
      Fail(Claim(AfterFailures(q, k, worker, error, times[..|times| - 1]), k, worker, t), k, worker, error, t)
  }

  /** Each try comes when the one before lets it. */
  ghost predicate InTime(runAfter: int, times: seq<int>) {
    && (times != [] ==> runAfter <= times[0])
    && forall i | 0 < i < |times| :: times[i - 1] + i * i * 60 <= times[i]
  }

  /** Main result. A job that keeps failing is open, and tried again no sooner than that, until its fifth try,
      which is the last. */
  lemma {:induction false} FifthFailureIsLast(q: Queue, k: JobKey, worker: string, error: string, times: seq<int>)
    requires k in q && q[k].doneAt.None? && q[k].attempts == 0 && q[k].leaseUntil.None?
    requires 0 < |times| <= 5 && InTime(q[k].runAfter, times)
    ensures var r, last := AfterFailures(q, k, worker, error, times), times[|times| - 1];
            k in r && r[k].attempts == |times| && r[k].leaseUntil.None? && r[k].refVersion == q[k].refVersion &&
            if |times| == 5 then r[k].doneAt == Some(last)
            else r[k].doneAt.None? && r[k].runAfter == last + |times| * |times| * 60
  {
    var init := times[..|times| - 1];
    if init != [] {
      assert InTime(q[k].runAfter, init);
      FifthFailureIsLast(q, k, worker, error, init);
    } else {
      assert AfterFailures(q, k, worker, error, init) == q;
    }
    var before, t := AfterFailures(q, k, worker, error, init), times[|times| - 1];
    assert Claimable(before, k, t);
    var claimed := Claim(before, k, worker, t);
    assert HeldBy(claimed, k, worker) && claimed[k].attempts == |times|;
    FailIs(claimed, k, worker, error, t);
    hide Fail, Claim;
  }

  // ---- Debouncing ----

  /** Clocks do not run backwards, and work is asked for at most a quiet period ahead. */
  ghost predicate Timely(events: seq<Event>) {
    && (forall i, j | 0 <= i < j < |events| && !events[i].EvDrop? && !events[j].EvDrop? :: events[i].at <= events[j].at)
    && (forall i | 0 <= i < |events| && events[i].EvSchedule? :: events[i].runAfter <= events[i].at + QUIET_PERIOD)
    && (forall i | 0 <= i < |events| && !events[i].EvDrop? :: 0 <= events[i].at)
  }

  /** An open job that has not failed since it was last asked for runs within the longest wait. */
  predicate WaitBounded(j: Job) {
    j.doneAt.None? && j.lastError.None? ==> j.runAfter <= j.pendingSince + MAX_WAIT
  }

  /** Nothing a job remembers lies in the future. */
  predicate PastOnly(j: Job, now: int) {
    (j.lastRunAt.Some? ==> j.lastRunAt.value <= now) && j.pendingSince <= now
  }

  lemma NextKeepsBounds(q: Queue, e: Event, now: int)
    requires forall k <- q :: WaitBounded(q[k]) && PastOnly(q[k], now)
    requires !e.EvDrop? ==> now <= e.at && 0 <= e.at
    requires e.EvSchedule? ==> e.runAfter <= e.at + QUIET_PERIOD
    ensures forall k <- Next(q, e) :: WaitBounded(Next(q, e)[k]) && PastOnly(Next(q, e)[k], if e.EvDrop? then now else e.at)
  {
  }

  function Latest(events: seq<Event>): int {
    if events == [] then 0
    else if events[|events| - 1].EvDrop? then Latest(events[..|events| - 1]) else events[|events| - 1].at
  }

  lemma {:induction false} LatestIsPast(events: seq<Event>, at: int)
    requires 0 <= at && forall i | 0 <= i < |events| && !events[i].EvDrop? :: events[i].at <= at
    ensures Latest(events) <= at
  {
    if events != [] {
      LatestIsPast(events[..|events| - 1], at);
    }
  }

  lemma {:induction false} BoundsAlwaysHold(events: seq<Event>)
    requires Timely(events)
    ensures forall k <- Run(events) :: WaitBounded(Run(events)[k]) && PastOnly(Run(events)[k], Latest(events))
  {
    if events != [] {
      var init, e := events[..|events| - 1], events[|events| - 1];
      BoundsAlwaysHold(init);
      if !e.EvDrop? {
        LatestIsPast(init, e.at);
      }
      NextKeepsBounds(Run(init), e, Latest(init));
    }
  }

  /** Main result. Under any stream of reschedules, claims, failures and results, an open job
      that has not failed since it was last scheduled is due within MAX_WAIT of when it
      began to wait: steady activity cannot starve it. */
  lemma NoJobStarves(events: seq<Event>, k: JobKey)
    requires Timely(events)
    requires k in Run(events) && Run(events)[k].doneAt.None? && Run(events)[k].lastError.None?
    ensures Run(events)[k].runAfter <= Run(events)[k].pendingSince + MAX_WAIT
  {
    BoundsAlwaysHold(events);
  }

  // ---- "At most once an hour" ----

  /** A job that ran does not become due again sooner than MIN_RERUN later. */
  predicate HourlyGap(j: Job) {
    j.doneAt.None? && j.lastRunAt.Some? ==> j.lastRunAt.value + MIN_RERUN <= j.runAfter
  }

  /** The gap is kept when a finished job is reopened. While it waits, another change may bring
      it forward; exactly when that breaks the gap. */
  lemma ScheduleKeepsHourlyGapIff(j: Job, version: nat, runAfter: int, at: int)
    requires HourlyGap(j)
    ensures HourlyGap(Scheduled(Some(j), version, runAfter, at)) <==>
            (j.doneAt.Some? || j.lastRunAt.None? ||
             (j.lastRunAt.value + MIN_RERUN <= runAfter && j.lastRunAt.value + MIN_RERUN <= j.pendingSince + MAX_WAIT))
  {
  }

  /** So "at most once an hour" is not kept: two comments a second apart, just after a digest
      was written, have it written again a quiet period later. */
  lemma SecondCommentBeatsTheHour(t: int)
    requires 0 <= t
    ensures var k := JobKey(Digest, 1);
            var events := [EvSchedule(k, 1, t, t), EvClaim(k, "w", t), EvFinish(k, "w", 1, 1, t),
                           EvSchedule(k, 2, t + 1 + QUIET_PERIOD, t + 1), EvSchedule(k, 3, t + 2 + QUIET_PERIOD, t + 2)];
            Timely(events) && k in Run(events) && Claimable(Run(events), k, t + 2 + QUIET_PERIOD) &&
            Run(events)[k].lastRunAt == Some(t) && !HourlyGap(Run(events)[k])
  {
    var k := JobKey(Digest, 1);
    var e := [EvSchedule(k, 1, t, t), EvClaim(k, "w", t), EvFinish(k, "w", 1, 1, t),
              EvSchedule(k, 2, t + 1 + QUIET_PERIOD, t + 1), EvSchedule(k, 3, t + 2 + QUIET_PERIOD, t + 2)];
    RunSplit(e, 0);
    RunSplit(e, 1);
    RunSplit(e, 2);
    RunSplit(e, 3);
    assert e[..0] == [] && e[..4] == e[..|e| - 1];
  }

  // ---- The statements themselves ----

  /** A worker's turn at a queue, as the commands update it. */
  class JobQueue {
    var jobs: Queue

    constructor ()
      ensures jobs == map[]
    {
      jobs := map[];
    }

    method ClaimJob(k: JobKey, worker: string, at: int) returns (got: bool)
      modifies this
      ensures jobs == Next(old(jobs), EvClaim(k, worker, at))
      ensures got <==> Claims(old(jobs), EvClaim(k, worker, at), k)
    {
      got := false;
      if k in jobs {
        var j := jobs[k];
        if j.doneAt.None? && j.runAfter <= at && (j.leaseUntil.None? || j.leaseUntil.value < at) {
          j := j.(claimedBy := Some(worker));
          j := j.(leaseUntil := Some(at + JOB_LEASE));
          j := j.(attempts := j.attempts + 1);
          jobs := jobs[k := j];
          got := true;
        }
      }
    }

    method FailJob(k: JobKey, worker: string, error: string, at: int)
      modifies this
      ensures jobs == Next(old(jobs), EvFail(k, worker, error, at))
    {
      if k !in jobs {
        return;
      }
      var j := jobs[k];
      var claimed := if j.claimedBy.Some? then j.claimedBy.value else "";
      if claimed != worker {
        return; // someone else has it now
      }
      var attempts := j.attempts;
      j := j.(claimedBy := None, leaseUntil := None, lastError := Some(error));
      if attempts >= MAX_ATTEMPTS {
        j := j.(doneAt := Some(at));
      } else {
        j := j.(runAfter := at + attempts * attempts * 60);
      }
      jobs := jobs[k := j];
    }

    method FinishJob(k: JobKey, worker: string, version: nat, current: nat, at: int) returns (ok: bool)
      modifies this
      ensures jobs == Next(old(jobs), EvFinish(k, worker, version, current, at))
      ensures ok <==> Accepts(old(jobs), k, worker, version, current)
    {
      if k !in jobs {
        return false;
      }
      var j := jobs[k];
      var claimed := if j.claimedBy.Some? then j.claimedBy.value else "";
      if claimed != worker {
        return false; // not this worker's any more
      }
      j := j.(claimedBy := None, leaseUntil := None);
      if version != current {
        jobs := jobs[k := j];
        return false;
      }
      jobs := jobs[k := j.(doneAt := Some(at), lastRunAt := Some(at), lastError := None)];
      return true;
    }

    method Schedule(k: JobKey, version: nat, runAfter: int, at: int)
      modifies this
      ensures jobs == Next(old(jobs), EvSchedule(k, version, runAfter, at))
    {
      if k !in jobs {
        jobs := jobs[k := Job(version, runAfter, at, 0, None, None, None, None, None)];
        return;
      }
      var j := jobs[k];
      var waiting := j.doneAt.None?;
      if waiting {
        j := j.(runAfter := Min(runAfter, j.pendingSince + MAX_WAIT));
      } else {
        var last := if j.lastRunAt.Some? then j.lastRunAt.value else 0;
        j := j.(runAfter := Max(runAfter, last + MIN_RERUN), pendingSince := at);
      }
      jobs := jobs[k := j.(refVersion := version, attempts := 0, lastError := None, doneAt := None)];
    }
  }
}
