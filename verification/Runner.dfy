/** One worker's pass: expire, claim, process under a renewed lease, then complete, record or give up. */
module Runner {
  import opened Prelude
  import opened Columns
  import opened SongJobs
  import opened Holders
  import JobTable
  import P = Protocol

  /** How a statement went for its sender: with a reply, or with none although it may have been applied. */
  datatype Reply = Heard | Lost(applied: bool)
  {
    predicate Applied() {
      Heard? || applied
    }
  }

  /** A renewal: when it runs, what comes of it, and whether the attempt's context has ended by the time its error is
      seen. */
  datatype Tick = Tick(at: Time, reply: Reply, ended: bool)

  /** What the attempt meets outside the tables. `published` is Process's success; the two flags are the contexts'
      states when it returns. */
  datatype World = World(
    parsed: bool, ticks: seq<Tick>, published: bool, cancelled: bool, timedOut: bool, finishAt: Time, reply: Reply,
    discards: bool, removes: bool)

  // ----- renewLease -----

  /** The tables after the renewals, and whether a failed one was recorded; the first error ends them. */
  function Renewals(db: Db, a: Attempt, ticks: seq<Tick>): (Db, bool)
    decreases |ticks|
  {
    if ticks == [] then (db, false)
    else
      var t := ticks[0];
      var next := if t.reply.Applied() then RenewJob(db, a, t.at) else db;
      if t.reply.Heard? && IsRenewable(db, a, t.at) then Renewals(next, a, ticks[1..]) else (next, !t.ended)
  }

  predicate IsRenewable(db: Db, a: Attempt, now: Time) {
    Current(db, a) && db.jobs[a.song].Leased(now)
  }

  /** Renewals move the end of the attempt's own lease and nothing else. */
  ghost predicate SameButLease(db: Db, next: Db, a: Attempt) {
    && next.songs == db.songs && next.jobs.Keys == db.jobs.Keys
    && (forall id <- db.jobs :: id != a.song ==> next.jobs[id] == db.jobs[id])
    && (a.song in db.jobs ==>
          && next.jobs[a.song] == db.jobs[a.song].(leaseExpiresAt := next.jobs[a.song].leaseExpiresAt)
          && (next.jobs[a.song] != db.jobs[a.song] ==> Current(db, a) && next.jobs[a.song].leaseExpiresAt.Some?))
  }

  lemma {:induction false} RenewalsMoveTheLease(db: Db, a: Attempt, ticks: seq<Tick>)
    requires Consistent(db)
    ensures Consistent(Renewals(db, a, ticks).0) && SameButLease(db, Renewals(db, a, ticks).0, a)
    decreases |ticks|
  {
    if ticks != [] {
      var t := ticks[0];
      var next := if t.reply.Applied() then RenewJob(db, a, t.at) else db;
      ExecKeepsConsistent(db, t.at, Renew(a));
      RenewalsMoveTheLease(next, a, ticks[1..]);
    }
  }

  /** If every renewal was answered and none failed, each came before the lease it extended had lapsed, and the last one
      set its end. */
  lemma {:induction false} UnbrokenLease(db: Db, a: Attempt, ticks: seq<Tick>)
    requires ticks != [] && forall t <- ticks :: t.reply.Heard? && !t.ended
    requires !Renewals(db, a, ticks).1
    ensures Current(db, a) && db.jobs[a.song].Leased(ticks[0].at)
    ensures forall i :: 0 < i < |ticks| ==> ticks[i].at < ticks[i - 1].at + LEASE
    ensures var after := Renewals(db, a, ticks).0;
            Current(after, a) && after.jobs[a.song].leaseExpiresAt == Some(ticks[|ticks| - 1].at + LEASE)
    decreases |ticks|
  {
    var next := RenewJob(db, a, ticks[0].at);
    assert ticks[0] in ticks;
    if |ticks| > 1 {
      UnbrokenLease(next, a, ticks[1..]);
      forall i | 0 < i < |ticks|
        ensures ticks[i].at < ticks[i - 1].at + LEASE
      {
        if i > 1 {
          assert ticks[1..][i - 1].at < ticks[1..][i - 2].at + LEASE;
        }
      }
    }
  }

  /** The i-th renewal comes before the lease that `end` or the renewal before it has set is over. */
  ghost predicate InTime(ticks: seq<Tick>, i: int, end: Time) {
    0 <= i < |ticks| ==> ticks[i].at < if i == 0 then end else ticks[i - 1].at + 10 * MINUTE
  }

  /** Conversely, renewals that come while the lease before them lasts all find their row, and leave ten minutes from
      the last one. */
  lemma {:induction false} RenewalsInTimeSucceed(db: Db, a: Attempt, ticks: seq<Tick>, end: Time)
    requires IsHeld(db.jobs, a) && db.jobs[a.song].leaseExpiresAt == Some(end)
    requires forall t <- ticks :: t.reply.Heard?
    requires forall i :: InTime(ticks, i, end)
    ensures var (after, failed) := Renewals(db, a, ticks);
      && !failed && IsHeld(after.jobs, a)
      && after.jobs[a.song].leaseExpiresAt == Some(if ticks == [] then end else ticks[|ticks| - 1].at + 10 * MINUTE)
    decreases |ticks|
  {
    if ticks != [] {
      assert ticks[0] in ticks && InTime(ticks, 0, end);
      var next := RenewJob(db, a, ticks[0].at);
      RenewOnColumns(db, a, ticks[0].at);
      var rest, restEnd := ticks[1..], ticks[0].at + 10 * MINUTE;
      forall i
        ensures InTime(rest, i, restEnd)
      {
        assert InTime(ticks, i + 1, end);
      }
      RenewalsInTimeSucceed(next, a, rest, restEnd);
    }
  }

  /** The renewal that ends the loop: the first to come too late, or to get no reply. */
  ghost predicate IsFirstError(ticks: seq<Tick>, i: int, end: Time) {
    && 0 <= i < |ticks| && !(ticks[i].reply.Heard? && InTime(ticks, i, end))
    && forall k :: 0 <= k < i ==> ticks[k].reply.Heard? && InTime(ticks, k, end)
  }

  /** The first error counts as a failed renewal unless the attempt's context has ended by then; a row that has passed
      on is one at once. */
  lemma {:induction false} ErrorsAreRecorded(db: Db, a: Attempt, ticks: seq<Tick>, end: Time)
    requires IsHeld(db.jobs, a) ==> db.jobs[a.song].leaseExpiresAt == Some(end)
    ensures Renewals(db, a, ticks).1 <==>
      if IsHeld(db.jobs, a) then exists i :: IsFirstError(ticks, i, end) && !ticks[i].ended
      else ticks != [] && !ticks[0].ended
    decreases |ticks|
  {
    if ticks != [] && IsHeld(db.jobs, a) {
      RenewOnColumns(db, a, ticks[0].at);
      if !(ticks[0].reply.Heard? && InTime(ticks, 0, end)) {
        assert IsFirstError(ticks, 0, end);
      } else {
        var rest, restEnd := ticks[1..], ticks[0].at + 10 * MINUTE;
        ErrorsAreRecorded(RenewJob(db, a, ticks[0].at), a, rest, restEnd);
        forall i
          ensures IsFirstError(ticks, i + 1, end) <==> IsFirstError(rest, i, restEnd)
        {
        }
        if Renewals(db, a, ticks).1 {
          var i :| IsFirstError(rest, i, restEnd) && !rest[i].ended;
          assert IsFirstError(ticks, i + 1, end);
        }
        forall i | IsFirstError(ticks, i, end)
          ensures IsFirstError(rest, i - 1, restEnd)
        {
        }
      }
    }
  }

  /** Every other song keeps its rows, and this one its input and its attempt count. */
  ghost predicate SameOthers(db: Db, next: Db, a: Attempt)
    requires db.jobs.Keys == db.songs.Keys && next.jobs.Keys == next.songs.Keys
  {
    && next.jobs.Keys == db.jobs.Keys
    && forall id <- db.jobs ::
         && next.jobs[id].input == db.jobs[id].input && next.jobs[id].attemptCount == db.jobs[id].attemptCount
         && (id != a.song ==> next.jobs[id] == db.jobs[id] && next.songs[id] == db.songs[id])
  }

  /** Where the state machine's worker goes from here. */
  function Verdict(a: Attempt, input: InputName, w: World, renewFailed: bool): P.Stage {
    var returned := P.Returned(if w.published then Some(w.finishAt) else None);
    P.Decision(P.Holding(a, input, w.finishAt, returned, renewFailed, w.cancelled, w.timedOut)).stage
  }

  /** What the verdict has the database execute. */
  function Finished(db: Db, a: Attempt, verdict: P.Stage, w: World): Db {
    if !w.reply.Applied() then db
    else if verdict.Completing? then CompleteJob(db, a, PublishedFor(a), w.finishAt)
    else if verdict.Recording? || (verdict.Discarding? && verdict.recordNext) then
        SongJobs.RecordFailure(db, a, w.finishAt)
    else db
  }

  // What process does once its renewals have left the tables at `before`, in the terms of the schema and of the files.

  /** A failed renewal or a shutdown touches no row; a missed deadline or an error is recorded; otherwise the job
      completes. */
  ghost predicate Concludes(before: Db, after: Db, a: Attempt, w: World, renewFailed: bool)
    requires before.jobs.Keys == before.songs.Keys
  {
    if renewFailed || w.cancelled || !w.reply.Applied() || !IsHeld(before.jobs, a) then after == before
    else if w.timedOut || !w.published then IsRecorded(before, after, a, w.finishAt)
    else IsCompleted(before, after, a, w.finishAt)
  }

  /** The input goes when this attempt is known to have finished the job: by completing it, or by its third failure. */
  ghost predicate InputGoes(before: Db, a: Attempt, w: World, renewFailed: bool) {
    && !renewFailed && !w.cancelled && w.reply.Heard? && IsHeld(before.jobs, a) && w.removes
    && (w.timedOut || !w.published ==> 3 <= a.number)
  }

  /** A published output goes when the attempt gives up, misses its deadline, or finds the row passed on. */
  ghost predicate OutputGoes(before: Db, a: Attempt, w: World, renewFailed: bool) {
    && w.published && w.discards
    && (renewFailed || w.cancelled || w.timedOut || (w.reply.Heard? && !IsHeld(before.jobs, a)))
  }

  class Worker {
    const table: JobTable.Table
    /** The incoming and songs directories. */
    var inputs: set<InputName>
    var outputs: set<Attempt>

    constructor (table: JobTable.Table, inputs: set<InputName>, outputs: set<Attempt>)
      ensures this.table == table && this.inputs == inputs && this.outputs == outputs
    {
      this.table, this.inputs, this.outputs := table, inputs, outputs;
    }

    method RenewLease(a: Attempt, ticks: seq<Tick>) returns (failed: bool)
      modifies table
      ensures (table.Rows(), failed) == Renewals(old(table.Rows()), a, ticks)
    {
      failed := false;
      ghost var start := table.Rows();
      assert ticks[0..] == ticks;
      for i := 0 to |ticks|
        invariant Renewals(start, a, ticks) == Renewals(table.Rows(), a, ticks[i..]) && !failed
      {
        var t := ticks[i];
        assert ticks[i..][1..] == ticks[i + 1..];
        var found := false;
        if t.reply.Applied() {
          found := table.Renew(a, t.at);
        }
        if !found || !t.reply.Heard? {
          failed := !t.ended;
          return;
        }
      }
    }

    /** recordFailure: the input goes only when the failure is known to be the last. */
    method RecordFailure(a: Attempt, input: InputName, now: Time, reply: Reply, removes: bool) returns (ok: bool)
      requires Consistent(table.Rows()) && Handed(table.Rows(), a) && !ReadyBy(table.Rows(), a)
      modifies this`inputs, table
      ensures Consistent(table.Rows()) && SameOthers(old(table.Rows()), table.Rows(), a) && !ReadyBy(table.Rows(), a)
      ensures table.Rows() == if reply.Applied() then SongJobs.RecordFailure(old(table.Rows()), a, now)
        else old(table.Rows())
      ensures ok == (reply.Heard? && Current(old(table.Rows()), a))
      ensures inputs == if ok && MAX_ATTEMPTS <= a.number && removes then old(inputs) - {input} else old(inputs)
      ensures ok && MAX_ATTEMPTS <= a.number ==> !table.jobs[a.song].Live()
    {
      RecordStep(table.Rows(), a, now);
      FailureOnColumns(table.Rows(), a, now);
      var found, terminal := false, false;
      if reply.Applied() {
        found, terminal := table.Fail(a, now);
      }
      ok := found && reply.Heard?;
      if ok && terminal && removes {
        inputs := inputs - {input};
      }
    }

    /** The last stretch of process: complete, then drop the input, or the output if the row has passed to a later
        attempt. */
    method Complete(a: Attempt, input: InputName, w: World) returns (ok: bool)
      requires Consistent(table.Rows()) && Handed(table.Rows(), a) && !ReadyBy(table.Rows(), a) && a in outputs
      modifies this, table
      ensures table.Rows() == if w.reply.Applied() then CompleteJob(old(table.Rows()), a, PublishedFor(a), w.finishAt)
        else old(table.Rows())
      ensures Consistent(table.Rows()) && SameOthers(old(table.Rows()), table.Rows(), a)
      ensures ok == (w.reply.Heard? && Current(old(table.Rows()), a))
      ensures ReadyBy(table.Rows(), a) == (w.reply.Applied() && Current(old(table.Rows()), a))
      ensures inputs == if ok && w.removes then old(inputs) - {input} else old(inputs)
      ensures ok ==> !table.jobs[a.song].Live()
      ensures outputs == if w.reply.Heard? && !ok && w.discards then old(outputs) - {a} else old(outputs)
    {
      ok := false;
      CompleteStep(table.Rows(), a, w.finishAt);
      CompleteOnColumns(table.Rows(), a, w.finishAt);
      var found := false;
      if w.reply.Applied() {
        found := table.Complete(a, PublishedFor(a), w.finishAt);
      }
      if w.reply.Heard? {
        if !found {
          Discard(a, true, w.discards);
          return;
        }
        if w.removes {
          inputs := inputs - {input};
        }
        ok := true;
      }
    }

    /** process once Process has returned and the renewer has stopped: a failed renewal, shutdown, deadline, error,
        success, in this order. */
    method Conclude(a: Attempt, input: InputName, w: World, renewFailed: bool) returns (ok: bool)
      requires Consistent(table.Rows()) && Handed(table.Rows(), a) && !ReadyBy(table.Rows(), a)
      requires w.published ==> a in outputs
      modifies this, table
      ensures table.Rows() == Finished(old(table.Rows()), a, Verdict(a, input, w, renewFailed), w)
      ensures Concludes(old(table.Rows()), table.Rows(), a, w, renewFailed)
      ensures inputs == if InputGoes(old(table.Rows()), a, w, renewFailed) then old(inputs) - {input} else old(inputs)
      ensures outputs == if OutputGoes(old(table.Rows()), a, w, renewFailed) then old(outputs) - {a} else old(outputs)
      ensures Consistent(table.Rows()) && SameOthers(old(table.Rows()), table.Rows(), a)
      ensures inputs == old(inputs)
        || (inputs == old(inputs) - {input} && !table.jobs[a.song].Live() && Current(old(table.Rows()), a))
      ensures outputs == old(outputs) || (outputs == old(outputs) - {a} && !ReadyBy(table.Rows(), a))
      ensures ReadyBy(table.Rows(), a) ==> w.published && !w.cancelled && !w.timedOut && !renewFailed && a in outputs
      ensures ok ==> ReadyBy(table.Rows(), a)
      ensures w.discards && w.published && a in outputs && !ReadyBy(table.Rows(), a) ==>
        w.reply.Lost? && !renewFailed && !w.cancelled && !w.timedOut
    {
      ok := false;
      if renewFailed || w.cancelled {
        Discard(a, w.published, w.discards);
        return;
      }
      if w.timedOut {
        Discard(a, w.published, w.discards);
        var recorded := RecordFailure(a, input, w.finishAt, w.reply, w.removes);
        return;
      }
      if !w.published {
        var recorded := RecordFailure(a, input, w.finishAt, w.reply, w.removes);
        return;
      }
      ok := Complete(a, input, w);
    }

    /** process, for a job that claim has just handed out. */
    method Process(a: Attempt, input: InputName, w: World) returns (ok: bool)
      requires Consistent(table.Rows()) && Handed(table.Rows(), a) && !ReadyBy(table.Rows(), a)
      requires w.published ==> a in outputs
      modifies this, table
      ensures var (renewed, failed) := Renewals(old(table.Rows()), a, w.ticks);
              table.Rows() == if w.parsed then Finished(renewed, a, Verdict(a, input, w, failed), w)
                  else old(table.Rows())
      // The same without the state machine's words: what becomes of the row, the input and the output.
      ensures var (renewed, failed) := Renewals(old(table.Rows()), a, w.ticks);
              && renewed.jobs.Keys == renewed.songs.Keys
              && if w.parsed then
                   && Concludes(renewed, table.Rows(), a, w, failed)
                   && inputs == (if InputGoes(renewed, a, w, failed) then old(inputs) - {input} else old(inputs))
                   && outputs == (if OutputGoes(renewed, a, w, failed) then old(outputs) - {a} else old(outputs))
                 else table.Rows() == old(table.Rows()) && inputs == old(inputs) && outputs == old(outputs)
      // Nothing but this song's row, this attempt's directory and this job's input is touched.
      ensures Consistent(table.Rows()) && SameOthers(old(table.Rows()), table.Rows(), a)
      // The input goes only once the job has finished, and only if this attempt finished it.
      ensures inputs == old(inputs)
        || (inputs == old(inputs) - {input} && !table.jobs[a.song].Live() && Current(old(table.Rows()), a))
      // The output goes only if no song row refers to it.
      ensures outputs == old(outputs) || (outputs == old(outputs) - {a} && !ReadyBy(table.Rows(), a))
      // The song becomes READY only by a published attempt whose renewals did not fail and which met no shutdown and no
      // deadline.
      ensures ReadyBy(table.Rows(), a) ==>
        w.published && !w.cancelled && !w.timedOut && !Renewals(old(table.Rows()), a, w.ticks).1 && a in outputs
      // Success is reported only if the song is READY.
      ensures ok ==> ReadyBy(table.Rows(), a)
      // A published output that no song refers to stays behind only if the reply to complete was lost.
      ensures w.parsed && w.discards && w.published && a in outputs && !ReadyBy(table.Rows(), a) ==>
        w.reply.Lost? && !Renewals(old(table.Rows()), a, w.ticks).1 && !w.cancelled && !w.timedOut
    {
      ok := false;
      RenewalsMoveTheLease(table.Rows(), a, w.ticks);
      if !w.parsed {
        return;
      }
      var renewFailed := RenewLease(a, w.ticks);
      ok := Conclude(a, input, w, renewFailed);
    }

    /** The loop of ProcessOne over the jobs that failExpired returned. */
    method RemoveInputs(expired: map<SongId, InputName>)
      modifies this`inputs
      ensures inputs == old(inputs) - expired.Values
    {
      var unseen := expired.Keys;
      while unseen != {}
        invariant unseen <= expired.Keys
        invariant inputs == old(inputs) - set id <- expired.Keys - unseen :: expired[id]
        decreases |unseen|
      {
        var id :| id in unseen;
        unseen := unseen - {id};
        inputs := inputs - {expired[id]};
      }
    }

    /** The first half of ProcessOne: fail the exhausted jobs and drop their inputs. */
    method Expire(now: Time, reply: Reply) returns (ok: bool)
      requires Consistent(table.Rows()) && Unshared(table.Rows())
      modifies this`inputs, table
      ensures table.Rows() == if reply.Applied() then FailExpired(old(table.Rows()), now) else old(table.Rows())
      ensures Consistent(table.Rows()) && Unshared(table.Rows()) && SameReady(old(table.Rows()), table.Rows())
      ensures KeepsLiveInputs(table.Rows(), old(inputs), inputs)
      // Exactly the inputs of the exhausted jobs go, once the reply has named them.
      ensures forall name ::
        name in inputs <==> name in old(inputs) && !(ok && NamesExhausted(old(table.Rows()), now, name))
      ensures ok == reply.Heard?
    {
      ghost var start := table.Rows();
      ExpireStep(start, now);
      var expired: map<SongId, InputName> := map[];
      if reply.Applied() {
        expired := table.FailExpired(now);
      }
      ok := reply.Heard?;
      if ok {
        RemoveInputs(expired);
        ExpiredAreNotLive(start, now, expired);
        forall name
          ensures name in expired.Values <==> NamesExhausted(start, now, name)
        {
          if NamesExhausted(start, now, name) {
            var id :| id in start.jobs && IsExhausted(start.jobs[id], now) && start.jobs[id].input == name;
            assert expired[id] == name;
          }
        }
      }
    }

    /** claim, as ProcessOne sees it. */
    method Claim(now: Time, reply: Reply) returns (claimed: Option<(Attempt, InputName)>)
      requires Consistent(table.Rows()) && Unshared(table.Rows())
      modifies table
      ensures Consistent(table.Rows()) && Unshared(table.Rows())
      ensures SameReady(old(table.Rows()), table.Rows()) && LiveWere(old(table.Rows()), table.Rows())
      ensures claimed.Some? ==>
        var (a, input) := claimed.value;
        && Current(table.Rows(), a) && Handed(table.Rows(), a) && !ReadyBy(table.Rows(), a)
        && table.jobs[a.song].input == input && TakesFirst(old(table.Rows()), now, a)
      ensures claimed.None? ==> reply.Lost? || (table.Rows() == old(table.Rows()) && !SomeDue(table.Rows(), now))
      ensures claimed.Some? ==> reply.Heard? && SomeDue(old(table.Rows()), now)
    {
      claimed := None;
      ghost var before := table.Rows();
      if reply.Applied() {
        claimed := table.Claim(now);
        if claimed.Some? {
          ClaimStep(before, now, claimed.value.0.song);
        }
      }
      if reply.Lost? {
        claimed := None;
      }
    }

    /** ProcessOne: from any sound state to a sound state, whatever happens on the way. */
    method ProcessOne(now: Time, expireReply: Reply, claimReply: Reply, w: World) returns (processed: bool, ok: bool)
      requires Consistent(table.Rows()) && Unshared(table.Rows()) && HasOutputs(table.Rows(), outputs)
      modifies this, table
      ensures Consistent(table.Rows()) && Unshared(table.Rows()) && HasOutputs(table.Rows(), outputs)
      ensures KeepsLiveInputs(table.Rows(), old(inputs), inputs)
      // A pass processes a job exactly when both replies come and a row is due: the first one, whose next attempt it
      // becomes.
      ensures processed <==>
        expireReply.Heard? && claimReply.Heard? && SomeDue(old(table.Rows()), now)
      ensures processed ==>
        exists a ::
          TakesFirst(old(table.Rows()), now, a) && Handed(table.Rows(), a) && (ok ==> ReadyBy(table.Rows(), a))
      ensures !processed ==> outputs == old(outputs) && SameReady(old(table.Rows()), table.Rows())
      ensures !processed ==> (ok <==> expireReply.Heard? && claimReply.Heard?)
      ensures processed && ok ==> exists a: Attempt :: ReadyBy(table.Rows(), a) && !ReadyBy(old(table.Rows()), a)
    {
      processed := false;
      ghost var start := table.Rows();
      DueAreNotExhausted(start, now);
      ok := Expire(now, expireReply);
      if !ok {
        return;
      }
      var claimed := Claim(now, claimReply);
      if claimed.None? {
        ok := claimReply.Heard?;
        return;
      }
      var (a, input) := claimed.value;
      processed := true;
      assert !ReadyBy(old(table.Rows()), a);
      assert TakesFirst(start, now, a);
      ok := ProcessClaimed(a, input, w);
    }

    method ProcessClaimed(a: Attempt, input: InputName, w: World) returns (ok: bool)
      requires Consistent(table.Rows()) && Unshared(table.Rows()) && HasOutputs(table.Rows(), outputs)
      requires Current(table.Rows(), a) && Handed(table.Rows(), a) && !ReadyBy(table.Rows(), a)
        && table.jobs[a.song].input == input
      modifies this, table
      ensures Consistent(table.Rows()) && Unshared(table.Rows()) && HasOutputs(table.Rows(), outputs)
      ensures LiveWere(old(table.Rows()), table.Rows()) && SameOthers(old(table.Rows()), table.Rows(), a)
      ensures KeepsLiveInputs(table.Rows(), old(inputs), inputs)
      ensures ok ==> ReadyBy(table.Rows(), a)
    {
      ghost var start, before := table.Rows(), outputs;
      if w.published {
        outputs := outputs + {a};
      }
      ok := Process(a, input, w);
      ProcessStep(start, table.Rows(), a, before, outputs);
    }

    /** discard: nothing to do for an attempt that published nothing. */
    method Discard(a: Attempt, published: bool, works: bool)
      modifies this`outputs
      ensures outputs == if published && works then old(outputs) - {a} else old(outputs)
    {
      if published && works {
        outputs := outputs - {a};
      }
    }
  }

  // ----- ProcessOne -----

  /** No two jobs share an input: CreateTemp never reuses a name. */
  ghost predicate Unshared(db: Db) {
    forall i <- db.jobs, j <- db.jobs :: i != j ==> db.jobs[i].input != db.jobs[j].input
  }

  /** Every live job that had its input still has it. */
  ghost predicate KeepsLiveInputs(db: Db, before: set<InputName>, after: set<InputName>) {
    forall id <- db.jobs :: db.jobs[id].Live() && db.jobs[id].input in before ==> db.jobs[id].input in after
  }

  /** Every READY song has its output directory. */
  ghost predicate HasOutputs(db: Db, outputs: set<Attempt>) {
    forall a: Attempt :: ReadyBy(db, a) ==> a in outputs
  }

  /** A job that is live was live before, with the same input. */
  ghost predicate LiveWere(db: Db, next: Db) {
    forall id <- next.jobs :: next.jobs[id].Live() ==>
        id in db.jobs && db.jobs[id].Live() && db.jobs[id].input == next.jobs[id].input
  }

  ghost predicate SameReady(db: Db, next: Db) {
    forall a: Attempt :: ReadyBy(next, a) <==> ReadyBy(db, a)
  }

  ghost predicate NamesExhausted(db: Db, now: Time, name: InputName) {
    exists id <- db.jobs :: IsExhausted(db.jobs[id], now) && db.jobs[id].input == name
  }

  ghost predicate SomeDue(db: Db, now: Time) {
    exists id <- db.jobs :: IsDue(db.jobs[id], now)
  }

  /** The attempt is the next one of the first due row. */
  ghost predicate TakesFirst(db: Db, now: Time, a: Attempt) {
    && a.song in db.jobs && IsDue(db.jobs[a.song], now) && IsFirst(db.jobs, now, a.song)
    && a.number == db.jobs[a.song].attemptCount + 1
  }

  /** Failing the exhausted jobs changes neither which rows are due nor their order. */
  lemma DueAreNotExhausted(db: Db, now: Time)
    requires Consistent(db)
    ensures var next := FailExpired(db, now);
      && (SomeDue(next, now) <==> SomeDue(db, now))
      && forall a :: TakesFirst(next, now, a) <==> TakesFirst(db, now, a)
  {
    var next := FailExpired(db, now);
    forall id <- db.jobs
      ensures IsDue(next.jobs[id], now) <==> IsDue(db.jobs[id], now)
      ensures IsDue(db.jobs[id], now) ==> next.jobs[id] == db.jobs[id]
    {
      ExpireOnColumns(db, now, id);
    }
    forall a
      ensures TakesFirst(next, now, a) <==> TakesFirst(db, now, a)
    {
      if a.song in db.jobs && IsDue(db.jobs[a.song], now) {
        assert IsFirst(next.jobs, now, a.song) <==> IsFirst(db.jobs, now, a.song);
      }
    }
  }

  lemma ExpireStep(db: Db, now: Time)
    requires Consistent(db) && Unshared(db)
    ensures var next := FailExpired(db, now);
            && Consistent(next) && Unshared(next) && SameReady(db, next)
            && forall id <- db.jobs :: db.jobs[id].Expired(now) ==> !next.jobs[id].Live()
  {
    ExecKeepsConsistent(db, now, Expire);
    ExecEvolves(db, now, Expire);
    forall a: Attempt
      ensures ReadyBy(FailExpired(db, now), a) <==> ReadyBy(db, a)
    {
      assert RowOk(db, a.song);
    }
  }

  lemma ExpiredAreNotLive(db: Db, now: Time, expired: map<SongId, InputName>)
    requires Consistent(db) && Unshared(db)
    requires forall id <- expired :: id in db.jobs && db.jobs[id].Expired(now) && db.jobs[id].input == expired[id]
    ensures forall id <- db.jobs :: FailExpired(db, now).jobs[id].Live() ==> db.jobs[id].input !in expired.Values
  {
  }

  lemma ClaimStep(db: Db, now: Time, id: SongId)
    requires Consistent(db) && Unshared(db) && IsCandidate(db, now, id)
    ensures var next, a := Exec(db, now, Claim(id)), Attempt(id, db.jobs[id].attemptCount + 1);
            && Consistent(next) && Unshared(next) && SameReady(db, next) && LiveWere(db, next)
            && Handed(next, a) && !ReadyBy(next, a) && next.jobs[id].attemptCount == a.number
                && next.jobs[id].input == db.jobs[id].input
  {
    ExecKeepsConsistent(db, now, Claim(id));
    assert RowOk(db, id) && RowOk(Exec(db, now, Claim(id)), id);
  }

  lemma ProcessStep(db: Db, next: Db, a: Attempt, outputs: set<Attempt>, after: set<Attempt>)
    requires Consistent(db) && Unshared(db) && HasOutputs(db, outputs)
    requires Consistent(next) && SameOthers(db, next, a) && a.song in db.jobs
      && db.jobs[a.song].attemptCount == a.number
    requires ReadyBy(next, a) ==> a in after
    requires outputs - {a} <= after
    ensures Unshared(next) && HasOutputs(next, after)
  {
  }

  lemma RecordStep(db: Db, a: Attempt, now: Time)
    requires Consistent(db) && Handed(db, a) && !ReadyBy(db, a)
    ensures var next := SongJobs.RecordFailure(db, a, now);
      && Consistent(next) && SameOthers(db, next, a) && !ReadyBy(next, a)
      && (Current(db, a) && MAX_ATTEMPTS <= a.number ==> !next.jobs[a.song].Live())
  {
    ExecKeepsConsistent(db, now, Record(a));
    ExecKeepsKeys(db, now, Record(a));
    assert RowOk(db, a.song);
  }

  lemma CompleteStep(db: Db, a: Attempt, now: Time)
    requires Consistent(db) && Handed(db, a) && !ReadyBy(db, a)
    ensures var next := CompleteJob(db, a, PublishedFor(a), now);
      && Consistent(next) && SameOthers(db, next, a)
      && (ReadyBy(next, a) <==> Current(db, a))
      && (Current(db, a) ==> !next.jobs[a.song].Live())
  {
    ExecKeepsConsistent(db, now, Complete(a));
    ExecKeepsKeys(db, now, Complete(a));
    assert RowOk(db, a.song);
  }
}
