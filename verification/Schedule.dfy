/** When jobs are claimed in a run of the queue: in the order of their columns, and not before their retry delay is
    over. */
module Schedule {
  import opened Prelude
  import opened Columns
  import opened SongJobs
  import opened QueueRuns

  /** Every claim of a run takes a due row, and the first of the due ones. */
  lemma ClaimsTakeTheFirst(qs: seq<Queue>, es: seq<Event>, i: nat, id: SongId)
    requires IsRun(qs, es) && i < |es| && es[i] == Run(Claim(id))
    ensures id in qs[i].db.jobs && IsDue(qs[i].db.jobs[id], qs[i].now) && IsFirst(qs[i].db.jobs, qs[i].now, id)
  {
    assert FollowsAt(qs, es, i);
    CandidateIsFirst(qs[i].db, qs[i].now, id);
  }

  /** The attempt fails at this event, with attempts left. */
  ghost predicate FailsAt(qs: seq<Queue>, es: seq<Event>, i: nat, a: Attempt) {
    i < |es| && i < |qs| && es[i] == Run(Record(a)) && IsHeld(qs[i].db.jobs, a) && a.number < 3
  }

  /** The job waits, untouched, or its time has come. */
  ghost predicate WaitsUntil(q: Queue, id: SongId, at: Time) {
    at <= q.now || (id in q.db.jobs && q.db.jobs[id].state == Queued && q.db.jobs[id].availableAt == at)
  }

  lemma {:induction false} WaitsItsDelay(qs: seq<Queue>, es: seq<Event>, i: nat, j: nat, a: Attempt)
    requires IsRun(qs, es) && FailsAt(qs, es, i, a) && i < j <= |es|
    ensures WaitsUntil(qs[j], a.song, qs[i].now + 15 * a.number * SECOND)
    decreases j
  {
    StepByRow(qs, es, j - 1);
    if es[j - 1].Run? {
      assert RowFollows(qs[j - 1], es[j - 1].statement, qs[j], a.song);
    }
    if i + 1 < j {
      WaitsItsDelay(qs, es, i, j - 1, a);
    } else {
      FailureOnColumns(qs[i].db, a, qs[i].now);
      assert FollowsAt(qs, es, i);
    }
  }

  /** After attempt n < 3 has failed the job is not claimed again for 15 n seconds. */
  lemma RetriesWait(qs: seq<Queue>, es: seq<Event>, i: nat, j: nat, a: Attempt)
    requires IsRun(qs, es) && FailsAt(qs, es, i, a) && i < j < |es| && es[j] == Run(Claim(a.song))
    ensures qs[i].now + 15 * a.number * SECOND <= qs[j].now
  {
    WaitsItsDelay(qs, es, i, j, a);
    ClaimsTakeTheFirst(qs, es, j, a.song);
  }

  lemma {:induction false} StaysAsRetried(qs: seq<Queue>, es: seq<Event>, i: nat, j: nat, a: Attempt)
    requires IsRun(qs, es) && FailsAt(qs, es, i, a) && i < j <= |es|
    requires forall k :: i < k < j ==> es[k] != Run(Claim(a.song))
    ensures a.song in qs[j].db.jobs && qs[j].db.jobs[a.song].state == Queued
    ensures qs[j].db.jobs[a.song].availableAt == qs[i].now + 15 * a.number * SECOND
    decreases j
  {
    StepByRow(qs, es, j - 1);
    if es[j - 1].Run? {
      assert RowFollows(qs[j - 1], es[j - 1].statement, qs[j], a.song);
    }
    if i + 1 < j {
      StaysAsRetried(qs, es, i, j - 1, a);
    } else {
      FailureOnColumns(qs[i].db, a, qs[i].now);
      assert FollowsAt(qs, es, i);
    }
  }

  /** A retried job is not claimed ahead of a due job that became available before it did again. */
  lemma RetriesQueueBehind(qs: seq<Queue>, es: seq<Event>, i: nat, j: nat, a: Attempt, other: SongId)
    requires IsRun(qs, es) && FailsAt(qs, es, i, a) && i < j < |es| && es[j] == Run(Claim(a.song))
    requires forall k :: i < k < j ==> es[k] != Run(Claim(a.song))
    requires other != a.song && other in qs[j].db.jobs && IsDue(qs[j].db.jobs[other], qs[j].now)
    ensures qs[i].now + 15 * a.number * SECOND <= qs[j].db.jobs[other].availableAt
  {
    StaysAsRetried(qs, es, i, j, a);
    ClaimsTakeTheFirst(qs, es, j, a.song);
  }

  /** created_at never changes, and started_at stays what the first claim made it. */
  lemma {:induction false} DatesStay(qs: seq<Queue>, es: seq<Event>, i: nat, j: nat, id: SongId)
    requires IsRun(qs, es) && i <= j <= |es| && id in qs[i].db.jobs
    ensures id in qs[j].db.jobs && qs[j].db.jobs[id].createdAt == qs[i].db.jobs[id].createdAt
    ensures 0 < qs[i].db.jobs[id].attemptCount ==> qs[j].db.jobs[id].startedAt == qs[i].db.jobs[id].startedAt
    decreases j
  {
    if i < j {
      DatesStay(qs, es, i, j - 1, id);
      RunEvolves(qs, es, i, j - 1);
      StepByRow(qs, es, j - 1);
      assert RowOk(qs[j - 1].db, id);
      if es[j - 1].Run? {
        assert RowFollows(qs[j - 1], es[j - 1].statement, qs[j], id);
      }
    }
  }

  lemma StartedAtTheFirstClaim(qs: seq<Queue>, es: seq<Event>, i: nat, j: nat, id: SongId)
    requires IsRun(qs, es) && i < j <= |es| && es[i] == Run(Claim(id)) && Claims(es, id, i) == 0
    ensures id in qs[j].db.jobs && qs[j].db.jobs[id].startedAt == Some(qs[i].now)
  {
    JobsTerminate(qs, es, id, i);
    AlwaysConsistent(qs, es, i);
    assert FollowsAt(qs, es, i);
    ClaimOnColumns(qs[i].db, qs[i].now, id);
    DatesStay(qs, es, i + 1, j, id);
  }
}
