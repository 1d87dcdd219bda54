/** Properties of whole runs of the job queue: any interleaving of the statements, from empty tables, under one
    clock. */
module QueueRuns {
  import opened Prelude
  import opened SongJobs

  datatype Queue = Queue(now: Time, db: Db)

  datatype Event = Tick(elapsed: nat) | Run(statement: Statement)

  ghost predicate Follows(q: Queue, e: Event, next: Queue) {
    match e
    case Tick(elapsed) => next == q.(now := q.now + elapsed)
    case Run(st) => CanExec(q.db, q.now, st) && next == q.(db := Exec(q.db, q.now, st))
  }

  ghost predicate IsRun(qs: seq<Queue>, es: seq<Event>) {
    && |qs| == |es| + 1
    && qs[0].db == EMPTY_DB
    && forall i :: FollowsAt(qs, es, i)
  }

  ghost predicate FollowsAt(qs: seq<Queue>, es: seq<Event>, i: int)
    requires |qs| == |es| + 1
  {
    0 <= i < |es| ==> Follows(qs[i], es[i], qs[i + 1])
  }

  /** The same event seen row by row. */
  ghost predicate RowsFollow(q: Queue, e: Event, next: Queue) {
    match e
    case Tick(elapsed) => next == q.(now := q.now + elapsed)
    case Run(st) =>
      && next.now == q.now
      && next.db.jobs.Keys == q.db.jobs.Keys + (if st.Enqueue? then {st.id} else {})
      && (st.Enqueue? ==> st.id !in q.db.jobs && next.db.jobs[st.id] == NewJob(st.input, st.begun) && st.begun <= q.now)
      && (st.Claim? ==> IsCandidate(q.db, q.now, st.id))
      && forall id :: RowFollows(q, st, next, id)
  }

  ghost predicate RowFollows(q: Queue, st: Statement, next: Queue, id: SongId) {
    id in q.db.jobs ==> id in next.db.jobs && next.db.jobs[id] == RowAfter(id, q.db.jobs[id], q.now, st)
  }

  lemma FollowsByRow(q: Queue, e: Event, next: Queue)
    requires Consistent(q.db) && Follows(q, e, next)
    ensures RowsFollow(q, e, next)
  {
    if e.Run? {
      ExecKeepsKeys(q.db, q.now, e.statement);
      forall id
        ensures RowFollows(q, e.statement, next, id)
      {
        if id in q.db.jobs {
          ExecActsByRow(q.db, q.now, e.statement, id);
        }
      }
    }
  }

  lemma {:induction false} AlwaysConsistent(qs: seq<Queue>, es: seq<Event>, i: nat)
    requires IsRun(qs, es) && i < |qs|
    ensures Consistent(qs[i].db)
  {
    if i > 0 {
      AlwaysConsistent(qs, es, i - 1);
      assert FollowsAt(qs, es, i - 1);
      if es[i - 1].Run? {
        ExecKeepsConsistent(qs[i - 1].db, qs[i - 1].now, es[i - 1].statement);
      }
    }
  }

  /** Rows only evolve, and the clock only advances, along a run. */
  lemma {:induction false} RunEvolves(qs: seq<Queue>, es: seq<Event>, i: nat, j: nat)
    requires IsRun(qs, es) && i <= j < |qs|
    ensures Evolves(qs[i].db, qs[j].db) && qs[i].now <= qs[j].now
    decreases j
  {
    if i < j {
      RunEvolves(qs, es, i, j - 1);
      AlwaysConsistent(qs, es, i);
      AlwaysConsistent(qs, es, j - 1);
      assert FollowsAt(qs, es, j - 1);
      if es[j - 1].Run? {
        ExecEvolves(qs[j - 1].db, qs[j - 1].now, es[j - 1].statement);
      }
    }
  }

  /** SUCCEEDED and FAILED are absorbing: the job and song rows never change again. */
  lemma TerminalIsAbsorbing(qs: seq<Queue>, es: seq<Event>, i: nat, j: nat, id: SongId)
    requires IsRun(qs, es) && i <= j < |qs|
    requires id in qs[i].db.jobs && !qs[i].db.jobs[id].Live()
    ensures id in qs[j].db.jobs && id in qs[j].db.songs && id in qs[i].db.songs
    ensures qs[j].db.jobs[id] == qs[i].db.jobs[id] && qs[j].db.songs[id] == qs[i].db.songs[id]
  {
    AlwaysConsistent(qs, es, i);
    RunEvolves(qs, es, i, j);
  }

  // ----- Attempts are handed out once -----

  function ClaimedAttempt(q: Queue, id: SongId): Attempt
    requires id in q.db.jobs
  {
    Attempt(id, q.db.jobs[id].attemptCount + 1)
  }

  /** Two claims anywhere in a run hand out different attempts. */
  lemma AttemptsAreHandedOutOnce(qs: seq<Queue>, es: seq<Event>, i: nat, j: nat)
    requires IsRun(qs, es) && i < j < |es|
    requires es[i].Run? && es[i].statement.Claim? && es[j].Run? && es[j].statement.Claim?
    ensures es[i].statement.id in qs[i].db.jobs && es[j].statement.id in qs[j].db.jobs
    ensures ClaimedAttempt(qs[i], es[i].statement.id) != ClaimedAttempt(qs[j], es[j].statement.id)
  {
    assert FollowsAt(qs, es, i) && FollowsAt(qs, es, j);
    RunEvolves(qs, es, i + 1, j);
    assert es[i].statement.id in qs[i + 1].db.jobs;
  }

  // ----- Leases -----

  /** The stretch of time for which an attempt owned its row: from the claim to its last lease end, or to its own
      finishing request. */
  datatype Lease = Lease(start: Time, end: Time)

  ghost function Extend(log: map<Attempt, Lease>, q: Queue, e: Event): map<Attempt, Lease> {
    match e
    case Run(Claim(id)) =>
      if id in q.db.jobs then log[ClaimedAttempt(q, id) := Lease(q.now, q.now + LEASE)] else log
    case Run(Renew(a)) =>
      if Current(q.db, a) && q.db.jobs[a.song].Leased(q.now) && a in log then log[a := log[a].(end := q.now + LEASE)]
      else log
    case Run(Complete(a)) => Release(log, q, a)
    case Run(Record(a)) => Release(log, q, a)
    case _ => log
  }

  ghost function Release(log: map<Attempt, Lease>, q: Queue, a: Attempt): map<Attempt, Lease> {
    if Current(q.db, a) && a in log then log[a := log[a].(end := Min(log[a].end, q.now))] else log
  }

  ghost function LeaseLog(qs: seq<Queue>, es: seq<Event>, n: nat): map<Attempt, Lease>
    requires n <= |es| <= |qs|
  {
    if n == 0 then map[] else Extend(LeaseLog(qs, es, n - 1), qs[n - 1], es[n - 1])
  }

  ghost predicate Logged(log: map<Attempt, Lease>, q: Queue, a: Attempt) {
    a in log <==> Handed(q.db, a)
  }

  ghost predicate Fits(log: map<Attempt, Lease>, q: Queue, a: Attempt) {
    a in log && a.song in q.db.jobs ==>
      && log[a].start <= log[a].end && log[a].start <= q.now
      && (a.number == q.db.jobs[a.song].attemptCount ==>
            if q.db.jobs[a.song].state.Running? then q.db.jobs[a.song].leaseExpiresAt == Some(log[a].end)
            else log[a].end <= q.now)
  }

  ghost predicate Disjoint(log: map<Attempt, Lease>, a: Attempt, b: Attempt) {
    a in log && b in log && a.song == b.song && a.number < b.number ==> log[a].end <= log[b].start
  }

  ghost predicate LogFits(log: map<Attempt, Lease>, q: Queue) {
    && (forall a :: Logged(log, q, a))
    && (forall a :: Fits(log, q, a))
    && (forall a, b :: Disjoint(log, a, b))
  }

  lemma ExtendFits(log: map<Attempt, Lease>, q: Queue, e: Event, next: Queue)
    requires Consistent(q.db) && LogFits(log, q) && RowsFollow(q, e, next)
    ensures LogFits(Extend(log, q, e), next)
  {
    var after := Extend(log, q, e);
    forall a
      ensures Logged(after, next, a) && Fits(after, next, a)
    {
      assert Logged(log, q, a) && Fits(log, q, a);
      assert RowOk(q.db, a.song);
      ExtendOne(log, q, e, next, a);
    }
    forall a, b
      ensures Disjoint(after, a, b)
    {
      assert Logged(log, q, a) && Logged(log, q, b) && Disjoint(log, a, b);
      if a.song in q.db.jobs {
        var last := Attempt(a.song, q.db.jobs[a.song].attemptCount);
        assert RowOk(q.db, a.song);
        assert Logged(log, q, last) && Fits(log, q, last) && Disjoint(log, a, last);
      }
    }
  }

  lemma ExtendOne(log: map<Attempt, Lease>, q: Queue, e: Event, next: Queue, a: Attempt)
    requires RowsFollow(q, e, next) && Logged(log, q, a) && Fits(log, q, a)
    requires RowOk(q.db, a.song)
    ensures Logged(Extend(log, q, e), next, a) && Fits(Extend(log, q, e), next, a)
  {
    if e.Run? {
      assert RowFollows(q, e.statement, next, a.song);
    }
  }

  lemma {:induction false} LeaseLogFits(qs: seq<Queue>, es: seq<Event>, n: nat)
    requires IsRun(qs, es) && n <= |es|
    ensures LogFits(LeaseLog(qs, es, n), qs[n])
  {
    if n > 0 {
      LeaseLogFits(qs, es, n - 1);
      StepByRow(qs, es, n - 1);
      ExtendFits(LeaseLog(qs, es, n - 1), qs[n - 1], es[n - 1], qs[n]);
    }
  }

  lemma StepByRow(qs: seq<Queue>, es: seq<Event>, i: nat)
    requires IsRun(qs, es) && i < |es|
    ensures Consistent(qs[i].db) && Consistent(qs[i + 1].db) && RowsFollow(qs[i], es[i], qs[i + 1])
  {
    AlwaysConsistent(qs, es, i);
    AlwaysConsistent(qs, es, i + 1);
    assert FollowsAt(qs, es, i);
    FollowsByRow(qs[i], es[i], qs[i + 1]);
  }

  /** In any run, the leases of different attempts of one song are disjoint and in the order of the attempts. */
  lemma LeasesNeverOverlap(qs: seq<Queue>, es: seq<Event>, n: nat, a: Attempt, b: Attempt)
    requires IsRun(qs, es) && n <= |es|
    requires Handed(qs[n].db, a) && Handed(qs[n].db, b) && a.song == b.song && a.number < b.number
    ensures var log := LeaseLog(qs, es, n);
      a in log && b in log && log[a].start <= log[a].end <= log[b].start <= log[b].end
  {
    LeaseLogFits(qs, es, n);
    var log := LeaseLog(qs, es, n);
    assert Logged(log, qs[n], a) && Logged(log, qs[n], b);
    assert Fits(log, qs[n], a) && Fits(log, qs[n], b) && Disjoint(log, a, b);
  }

  /** Once a lease has lapsed it stays as it was: no later statement extends it or puts its attempt under lease
      again. */
  lemma {:induction false} LapsedLeaseIsNeverRevived(qs: seq<Queue>, es: seq<Event>, i: nat, j: nat, a: Attempt)
    requires IsRun(qs, es) && i <= j <= |es|
    requires a in LeaseLog(qs, es, i) && LeaseLog(qs, es, i)[a].end <= qs[i].now
    ensures a in LeaseLog(qs, es, j) && LeaseLog(qs, es, j)[a] == LeaseLog(qs, es, i)[a]
    ensures !(Current(qs[j].db, a) && qs[j].db.jobs[a.song].Leased(qs[j].now))
    decreases j
  {
    RunEvolves(qs, es, i, j);
    LeaseLogFits(qs, es, j);
    assert Logged(LeaseLog(qs, es, j), qs[j], a) && Fits(LeaseLog(qs, es, j), qs[j], a);
    if i < j {
      LapsedLeaseIsNeverRevived(qs, es, i, j - 1, a);
      LeaseLogFits(qs, es, j - 1);
      assert Logged(LeaseLog(qs, es, j - 1), qs[j - 1], a);
      RunEvolves(qs, es, i, j - 1);
    }
  }

  // ----- Termination -----

  /** How many non-renewal transitions a row has left. */
  ghost function Measure(j: Job): nat {
    match j.state
    case Queued => if j.attemptCount <= MAX_ATTEMPTS then 2 * (MAX_ATTEMPTS - j.attemptCount) else 0
    case Running => if j.attemptCount <= MAX_ATTEMPTS then 2 * (MAX_ATTEMPTS - j.attemptCount) + 1 else 0
    case _ => 0
  }

  /** A change of a row that is more than a renewed lease. */
  predicate Transitioned(before: Job, after: Job) {
    before.state != after.state || before.attemptCount != after.attemptCount
  }

  lemma TransitionsDescend(q: Queue, e: Event, next: Queue, id: SongId)
    requires Consistent(q.db) && RowsFollow(q, e, next) && id in q.db.jobs
    ensures var before, after := q.db.jobs[id], next.db.jobs[id];
      && (if Transitioned(before, after) then Measure(after) < Measure(before) else Measure(after) == Measure(before))
      && after.attemptCount == before.attemptCount + if e == Run(Claim(id)) then 1 else 0
  {
    assert RowOk(q.db, id);
    if e.Run? {
      assert RowFollows(q, e.statement, next, id);
    }
  }

  ghost function Transitions(qs: seq<Queue>, id: SongId, n: nat): nat
    requires n < |qs|
  {
    if n == 0 then 0
    else
      Transitions(qs, id, n - 1)
      + if id in qs[n - 1].db.jobs && id in qs[n].db.jobs
          && Transitioned(qs[n - 1].db.jobs[id], qs[n].db.jobs[id]) then 1 else 0
  }

  ghost function Claims(es: seq<Event>, id: SongId, n: nat): nat
    requires n <= |es|
  {
    if n == 0 then 0 else Claims(es, id, n - 1) + if es[n - 1] == Run(Claim(id)) then 1 else 0
  }

  /** A job sees at most three claims and at most six transitions in any run; each one uses up part of its measure. */
  lemma {:induction false} JobsTerminate(qs: seq<Queue>, es: seq<Event>, id: SongId, n: nat)
    requires IsRun(qs, es) && n <= |es|
    ensures id in qs[n].db.jobs ==> Transitions(qs, id, n) + Measure(qs[n].db.jobs[id]) <= 2 * MAX_ATTEMPTS
    ensures id in qs[n].db.jobs ==> Claims(es, id, n) == qs[n].db.jobs[id].attemptCount <= MAX_ATTEMPTS
    ensures id !in qs[n].db.jobs ==> Transitions(qs, id, n) == 0 && Claims(es, id, n) == 0
  {
    AlwaysConsistent(qs, es, n);
    if id in qs[n].db.jobs {
      assert RowOk(qs[n].db, id);
    }
    if n > 0 {
      JobsTerminate(qs, es, id, n - 1);
      StepByRow(qs, es, n - 1);
      if id in qs[n - 1].db.jobs {
        TransitionsDescend(qs[n - 1], es[n - 1], qs[n], id);
      }
    }
  }

  ghost function Measures(db: Db): map<SongId, nat> {
    map id <- db.jobs :: Measure(db.jobs[id])
  }

  /** The event moved some row by more than a renewed lease. */
  ghost predicate Effective(q: Queue, next: Queue) {
    exists id :: id in q.db.jobs && id in next.db.jobs && Transitioned(q.db.jobs[id], next.db.jobs[id])
  }

  ghost function EffectiveEvents(qs: seq<Queue>, n: nat): nat
    requires n < |qs|
  {
    if n == 0 then 0 else EffectiveEvents(qs, n - 1) + if Effective(qs[n - 1], qs[n]) then 1 else 0
  }

  /** n jobs see at most 6n effective events between them, whatever the interleaving. */
  lemma {:induction false} RunsTerminate(qs: seq<Queue>, es: seq<Event>, n: nat)
    requires IsRun(qs, es) && n <= |es|
    ensures EffectiveEvents(qs, n) + Sum(Measures(qs[n].db)) <= 2 * MAX_ATTEMPTS * |qs[n].db.jobs|
  {
    if n > 0 {
      RunsTerminate(qs, es, n - 1);
      StepByRow(qs, es, n - 1);
      EventDescends(qs[n - 1], es[n - 1], qs[n]);
    }
  }

  lemma EventDescends(q: Queue, e: Event, next: Queue)
    requires Consistent(q.db) && RowsFollow(q, e, next)
    ensures Sum(Measures(next.db)) + (if Effective(q, next) then 1 else 0) + 2 * MAX_ATTEMPTS * |q.db.jobs|
         <= Sum(Measures(q.db)) + 2 * MAX_ATTEMPTS * |next.db.jobs|
  {
    forall id <- q.db.jobs
      ensures id in next.db.jobs && Measures(next.db)[id] <= Measures(q.db)[id]
      ensures Transitioned(q.db.jobs[id], next.db.jobs[id]) ==> Measures(next.db)[id] < Measures(q.db)[id]
    {
      TransitionsDescend(q, e, next, id);
    }
    if e.Run? && e.statement.Enqueue? {
      SumExtend(Measures(next.db), Measures(q.db), e.statement.id);
      assert |next.db.jobs.Keys| == |q.db.jobs.Keys| + 1;
      assert !Effective(q, next) by {
        forall id <- q.db.jobs
          ensures !Transitioned(q.db.jobs[id], next.db.jobs[id])
        {
          assert RowFollows(q, e.statement, next, id);
        }
      }
    } else {
      assert next.db.jobs.Keys == q.db.jobs.Keys;
      if Effective(q, next) {
        var id :| id in q.db.jobs && id in next.db.jobs && Transitioned(q.db.jobs[id], next.db.jobs[id]);
        SumStrict(Measures(next.db), Measures(q.db), id);
      } else {
        SumMonotone(Measures(next.db), Measures(q.db));
      }
    }
  }
}
