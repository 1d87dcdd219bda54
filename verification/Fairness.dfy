/** How long a job can be kept waiting: by other jobs (overtaking) and by its own leases and retry delays
    (unavailability). */
module Fairness {
  import opened Prelude
  import opened SongJobs
  import opened QueueRuns

  // ----- Bounded overtaking -----

  /** A queued job that has been claimable for a while. */
  predicate Waiting(q: Queue, target: SongId) {
    target in q.db.jobs && q.db.jobs[target].state.Queued? && q.db.jobs[target].availableAt < q.now
  }

  predicate IsAhead(q: Queue, target: SongId, id: SongId) {
    && id in q.db.jobs && target in q.db.jobs && id != target && q.db.jobs[id].Live()
    && Before(id, q.db.jobs[id], target, q.db.jobs[target])
  }

  function AttemptsLeft(j: Job): nat {
    if j.attemptCount <= MAX_ATTEMPTS then MAX_ATTEMPTS - j.attemptCount else 0
  }

  /** The attempts left to each live job ahead of the target in claim order. */
  ghost function AheadOf(q: Queue, target: SongId): map<SongId, nat> {
    map id <- q.db.jobs | IsAhead(q, target, id) :: AttemptsLeft(q.db.jobs[id])
  }

  /** An upload that commits after the target but whose transaction began early enough to sort before it. */
  predicate LateCommit(q: Queue, target: SongId, e: Event) {
    && target in q.db.jobs && e.Run? && e.statement.Enqueue?
    && Before(e.statement.id, NewJob(e.statement.input, e.statement.begun), target, q.db.jobs[target])
  }

  predicate IsClaim(e: Event) {
    e.Run? && e.statement.Claim?
  }

  lemma WaitingRowIsUntouched(q: Queue, e: Event, next: Queue, target: SongId)
    requires RowsFollow(q, e, next) && Waiting(q, target) && e != Run(Claim(target))
    ensures Waiting(next, target) && next.db.jobs[target] == q.db.jobs[target]
  {
    if e.Run? {
      assert RowFollows(q, e.statement, next, target);
    }
  }

  /** Nothing moves ahead of a waiting job except a late commit, and no attempt is ever given back. */
  lemma AheadDescends(q: Queue, e: Event, next: Queue, target: SongId, id: SongId)
    requires Consistent(q.db) && RowsFollow(q, e, next) && Waiting(q, target) && e != Run(Claim(target))
    requires id in AheadOf(next, target)
    ensures id in AheadOf(q, target) || (LateCommit(q, target, e) && id == e.statement.id)
    ensures id in AheadOf(q, target) ==> AheadOf(next, target)[id] <= AheadOf(q, target)[id]
    ensures e == Run(Claim(id)) && id in AheadOf(q, target) ==> AheadOf(next, target)[id] < AheadOf(q, target)[id]
  {
    WaitingRowIsUntouched(q, e, next, target);
    assert RowOk(q.db, id);
    if e.Run? {
      assert RowFollows(q, e.statement, next, id);
    }
  }

  lemma OvertakingStep(q: Queue, e: Event, next: Queue, target: SongId)
    requires Consistent(q.db) && RowsFollow(q, e, next) && Waiting(q, target) && e != Run(Claim(target))
    ensures Waiting(next, target)
    ensures Sum(AheadOf(next, target)) + (if IsClaim(e) then 1 else 0)
         <= Sum(AheadOf(q, target)) + if LateCommit(q, target, e) then MAX_ATTEMPTS else 0
  {
    WaitingRowIsUntouched(q, e, next, target);
    var before, after := AheadOf(q, target), AheadOf(next, target);
    forall id <- after
      ensures id in before || (LateCommit(q, target, e) && id == e.statement.id)
      ensures id in before ==> after[id] <= before[id]
      ensures e == Run(Claim(id)) && id in before ==> after[id] < before[id]
    {
      AheadDescends(q, e, next, target, id);
    }
    if IsClaim(e) {
      assert RowOk(q.db, target);
      assert e.statement.id in before && 0 < before[e.statement.id];
      SumStrict(after, before, e.statement.id);
    } else if LateCommit(q, target, e) && e.statement.id in after {
      SumExtend(after, before, e.statement.id);
    } else {
      SumMonotone(after, before);
    }
  }

  ghost function ClaimsBetween(es: seq<Event>, i: nat, j: nat): nat
    requires i <= j <= |es|
  {
    if i == j then 0 else ClaimsBetween(es, i, j - 1) + if IsClaim(es[j - 1]) then 1 else 0
  }

  ghost function LateCommitsBetween(qs: seq<Queue>, es: seq<Event>, target: SongId, i: nat, j: nat): nat
    requires i <= j <= |es| <= |qs|
  {
    if i == j then 0
    else LateCommitsBetween(qs, es, target, i, j - 1) + if LateCommit(qs[j - 1], target, es[j - 1]) then 1 else 0
  }

  /** While a waiting job stays unclaimed, the claims of other jobs are paid for by the attempts that were left to the
      jobs ahead of it, plus three for each upload that commits late. With no late commit the bound is fixed at the
      start. */
  lemma {:induction false} BoundedOvertaking(qs: seq<Queue>, es: seq<Event>, target: SongId, i: nat, j: nat)
    requires IsRun(qs, es) && i <= j <= |es|
    requires Waiting(qs[i], target)
    requires forall k :: i <= k < j ==> es[k] != Run(Claim(target))
    ensures Waiting(qs[j], target)
    ensures ClaimsBetween(es, i, j) + Sum(AheadOf(qs[j], target))
         <= Sum(AheadOf(qs[i], target)) + MAX_ATTEMPTS * LateCommitsBetween(qs, es, target, i, j)
    decreases j
  {
    if i < j {
      BoundedOvertaking(qs, es, target, i, j - 1);
      StepByRow(qs, es, j - 1);
      OvertakingStep(qs[j - 1], es[j - 1], qs[j], target);
    }
  }

  /** No commit is late when every upload's transaction begins after the target became available. */
  lemma {:induction false} LaterUploadsAreNotLate(qs: seq<Queue>, es: seq<Event>, target: SongId, i: nat, j: nat)
    requires IsRun(qs, es) && i <= j <= |es|
    requires Waiting(qs[i], target)
    requires forall k :: i <= k < j ==> es[k] != Run(Claim(target))
    requires forall k :: i <= k < j && es[k].Run? && es[k].statement.Enqueue? ==>
      qs[i].db.jobs[target].availableAt < es[k].statement.begun
    ensures target in qs[j].db.jobs && qs[j].db.jobs[target] == qs[i].db.jobs[target]
    ensures LateCommitsBetween(qs, es, target, i, j) == 0
    decreases j
  {
    if i < j {
      LaterUploadsAreNotLate(qs, es, target, i, j - 1);
      BoundedOvertaking(qs, es, target, i, j - 1);
      StepByRow(qs, es, j - 1);
      WaitingRowIsUntouched(qs[j - 1], es[j - 1], qs[j], target);
    }
  }

  // ----- Bounded unavailability -----

  /** How much of the next stretch of time the job spends live but neither claimable nor expirable. */
  function BlockedDuring(q: Queue, id: SongId, elapsed: nat): nat {
    if id in q.db.jobs && q.db.jobs[id].Live() then Max(0, Min(elapsed, DueAt(q.db.jobs[id]) - q.now)) else 0
  }

  /** BlockedDuring counts exactly the instants at which neither claim nor fail-expired accepts the job. */
  lemma BlockedInstants(q: Queue, id: SongId, at: Time)
    requires Consistent(q.db) && id in q.db.jobs && q.now <= at
    ensures q.db.jobs[id].Live() && !q.db.jobs[id].Claimable(at) && !q.db.jobs[id].Expired(at)
       <==> at - q.now < BlockedDuring(q, id, at - q.now + 1)
  {
    NoJobIsStranded(q.db, at, id);
  }

  ghost function Blocked(qs: seq<Queue>, es: seq<Event>, id: SongId, n: nat): nat
    requires n <= |es| <= |qs|
  {
    if n == 0 then 0
    else
      Blocked(qs, es, id, n - 1) + if es[n - 1].Tick? then BlockedDuring(qs[n - 1], id, es[n - 1].elapsed) else 0
  }

  /** Every renewal that takes effect does so within the attempt timeout of its claim. */
  ghost predicate RenewsWithin(log: map<Attempt, Lease>, q: Queue, e: Event, timeout: Time) {
    e.Run? && e.statement.Renew? && e.statement.attempt in log && Current(q.db, e.statement.attempt)
    ==> q.now <= log[e.statement.attempt].start + timeout
  }

  ghost predicate RenewsWithinAt(qs: seq<Queue>, es: seq<Event>, timeout: Time, i: int)
    requires |qs| == |es| + 1
  {
    0 <= i < |es| ==> RenewsWithin(LeaseLog(qs, es, i), qs[i], es[i], timeout)
  }

  /** The longest a job can still be blocked: what is left of this lease or delay, then full leases and delays for the
      attempts to come. */
  function Outlook(q: Queue, id: SongId, start: Time, timeout: nat): nat {
    if id !in q.db.jobs || !q.db.jobs[id].Live() then 0
    else
      var j, span := q.db.jobs[id], timeout + LEASE;
      if j.state.Queued? then Max(0, j.availableAt - q.now) + Attempts(j.attemptCount, span) + Delays(j.attemptCount)
      else Max(0, start + span - q.now) + Attempts(j.attemptCount, span) + Delays(j.attemptCount - 1)
  }

  function Attempts(used: int, span: nat): nat {
    if used == 0 then 3 * span else if used == 1 then 2 * span else if used == 2 then span else 0
  }

  function Delays(used: int): nat {
    if used == 0 then Delay(1) + Delay(2) else if used == 1 then Delay(2) else 0
  }

  ghost function StartOf(log: map<Attempt, Lease>, q: Queue, id: SongId): Time {
    if id in q.db.jobs && Attempt(id, q.db.jobs[id].attemptCount) in log then
      log[Attempt(id, q.db.jobs[id].attemptCount)].start
    else 0
  }

  /** Leases end within the attempt timeout plus one lease of their start. */
  ghost predicate Bounded(log: map<Attempt, Lease>, a: Attempt, timeout: Time) {
    a in log ==> log[a].end <= log[a].start + timeout + LEASE
  }

  lemma {:induction false} LeasesAreBounded(qs: seq<Queue>, es: seq<Event>, timeout: nat, a: Attempt, n: nat)
    requires IsRun(qs, es) && n <= |es| && forall i :: RenewsWithinAt(qs, es, timeout, i)
    ensures Bounded(LeaseLog(qs, es, n), a, timeout)
  {
    if n > 0 {
      LeasesAreBounded(qs, es, timeout, a, n - 1);
      assert RenewsWithinAt(qs, es, timeout, n - 1);
    }
  }

  /** A statement uses up some of the job's outlook, or leaves it as it is. */
  lemma OutlookRun(log: map<Attempt, Lease>, q: Queue, st: Statement, next: Queue, id: SongId, timeout: nat)
    requires RowsFollow(q, Run(st), next) && RowOk(q.db, id) && id in q.db.jobs && RowFollows(q, st, next, id)
    requires var a := Attempt(id, q.db.jobs[id].attemptCount);
      Logged(log, q, a) && Fits(log, q, a) && Bounded(log, a, timeout)
    ensures Outlook(next, id, StartOf(Extend(log, q, Run(st)), next, id), timeout)
      <= Outlook(q, id, StartOf(log, q, id), timeout)
  {
    match st
    case Enqueue(_, _, _) =>
    case Claim(_) =>
    case Complete(_) =>
    case Renew(_) =>
    case Record(_) =>
    case Expire =>
  }

  lemma OutlookStep(log: map<Attempt, Lease>, q: Queue, e: Event, next: Queue, id: SongId, timeout: nat)
    requires RowsFollow(q, e, next) && RowOk(q.db, id)
    requires id in q.db.jobs ==>
      var a := Attempt(id, q.db.jobs[id].attemptCount);
      Logged(log, q, a) && Fits(log, q, a) && Bounded(log, a, timeout)
    ensures var spent := if e.Tick? then BlockedDuring(q, id, e.elapsed) else 0;
      id in q.db.jobs ==>
        id in next.db.jobs
        && spent + Outlook(next, id, StartOf(Extend(log, q, e), next, id), timeout)
            <= Outlook(q, id, StartOf(log, q, id), timeout)
    ensures id !in q.db.jobs && id in next.db.jobs ==>
        Outlook(next, id, StartOf(Extend(log, q, e), next, id), timeout) <= 3 * (timeout + LEASE) + 3 * RETRY_DELAY
  {
    if e.Run? {
      assert RowFollows(q, e.statement, next, id);
      if id in q.db.jobs {
        OutlookRun(log, q, e.statement, next, id, timeout);
      }
    }
  }

  /** Over its whole life a job spends at most 3 * (timeout + 10 minutes) + 45 seconds live yet out of reach of claim
      and fail-expired. */
  lemma {:induction false} BoundedUnavailability(qs: seq<Queue>, es: seq<Event>, id: SongId, timeout: nat, n: nat)
    requires IsRun(qs, es) && n <= |es| && forall i :: RenewsWithinAt(qs, es, timeout, i)
    ensures Blocked(qs, es, id, n) + (if id in qs[n].db.jobs then
      Outlook(qs[n], id, StartOf(LeaseLog(qs, es, n), qs[n], id), timeout) else 0)
         <= 3 * (timeout + LEASE) + 45 * SECOND
    ensures Blocked(qs, es, id, n) <= 3 * (timeout + LEASE) + 45 * SECOND
    ensures id !in qs[n].db.jobs ==> Blocked(qs, es, id, n) == 0
  {
    if n > 0 {
      BoundedUnavailability(qs, es, id, timeout, n - 1);
      StepByRow(qs, es, n - 1);
      LeaseLogFits(qs, es, n - 1);
      var log, q := LeaseLog(qs, es, n - 1), qs[n - 1];
      assert RowOk(q.db, id);
      if id in q.db.jobs {
        var a := Attempt(id, q.db.jobs[id].attemptCount);
        assert Logged(log, q, a) && Fits(log, q, a);
        LeasesAreBounded(qs, es, timeout, a, n - 1);
      }
      OutlookStep(log, q, es[n - 1], qs[n], id, timeout);
    }
  }
}
