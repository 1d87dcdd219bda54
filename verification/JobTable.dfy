/** The two tables as the workers and the API change them in place, one SQL statement a method. */
module JobTable {
  import opened Prelude
  import opened Columns
  import opened SongJobs
  import opened Snapshots

  class Table {
    var jobs: map<SongId, Job>
    var songs: map<SongId, Song>

    function Rows(): Db
      reads this
    {
      Db(jobs, songs)
    }

    constructor ()
      ensures Rows() == EMPTY_DB
    {
      jobs, songs := map[], map[];
    }

    /** CreateSong and EnqueueSongJob in one transaction; a reused id violates the primary key and changes nothing. */
    method EnqueueUpload(id: SongId, input: InputName, begun: Time) returns (inserted: bool)
      modifies this
      ensures inserted == (id !in old(jobs) && id !in old(songs))
      ensures Rows() == if inserted then EnqueueJob(old(Rows()), id, input, begun) else old(Rows())
    {
      inserted := id !in jobs && id !in songs;
      if inserted {
        songs := songs[id := NEW_SONG];
        jobs := jobs[id := NewJob(input, begun)];
      }
    }

    /** The candidate subquery of ClaimSongJob: a scan that keeps the first claimable row in claim order. */
    method Candidate(now: Time) returns (best: Option<SongId>)
      ensures best.None? ==> forall id <- jobs :: !jobs[id].Claimable(now)
      ensures best.Some? ==> IsCandidate(Rows(), now, best.value)
    {
      best := None;
      var unseen := jobs.Keys;
      while unseen != {}
        invariant unseen <= jobs.Keys
        invariant best.None? ==> forall id <- jobs.Keys - unseen :: !jobs[id].Claimable(now)
        invariant best.Some? ==> best.value in jobs && best.value !in unseen && jobs[best.value].Claimable(now)
        invariant best.Some? ==> forall id <- jobs.Keys - unseen ::
          id != best.value && jobs[id].Claimable(now) ==> Before(best.value, jobs[best.value], id, jobs[id])
        decreases |unseen|
      {
        var id :| id in unseen;
        unseen := unseen - {id};
        if jobs[id].Claimable(now) {
          if best.None? || Before(id, jobs[id], best.value, jobs[best.value]) {
            best := Some(id);
          }
        }
      }
    }

    /** ClaimSongJob: hands the candidate's next attempt to the caller, or finds no row. */
    method Claim(now: Time) returns (claimed: Option<(Attempt, InputName)>)
      modifies this
      // Column by column: nobody is due, or the first row in claim order starts its next attempt under ten minutes'
      // lease.
      ensures claimed.None? ==> forall id <- jobs :: !IsDue(jobs[id], now)
      ensures claimed.Some? ==>
        var a := claimed.value.0;
        && a.song in old(jobs) && IsDue(old(jobs)[a.song], now) && IsFirst(old(jobs), now, a.song)
        && var j := old(jobs)[a.song];
           && a.number == j.attemptCount + 1 && songs == old(songs)
           && jobs == old(jobs)[a.song :=
                Job(j.input, Running, a.number, j.availableAt, Some(now + 10 * MINUTE), j.createdAt,
                    if j.startedAt == None then Some(now) else j.startedAt, j.finishedAt)]
      ensures claimed.None? ==> Rows() == old(Rows()) && forall id <- jobs :: !jobs[id].Claimable(now)
      ensures claimed.Some? ==>
        var a := claimed.value.0;
        && IsCandidate(old(Rows()), now, a.song) && a.number == old(jobs)[a.song].attemptCount + 1
        && claimed.value.1 == old(jobs)[a.song].input
        && Rows() == Exec(old(Rows()), now, Statement.Claim(a.song)) && Current(Rows(), a) && jobs[a.song].Leased(now)
    {
      ghost var before := Rows();
      var candidate := Candidate(now);
      if candidate.None? {
        return None;
      }
      var id := candidate.value;
      CandidateIsFirst(before, now, id);
      var row := jobs[id];
      if row.startedAt.None? {
        row := row.(startedAt := Some(now));
      }
      row := row.(state := Running, attemptCount := row.attemptCount + 1, leaseExpiresAt := Some(now + LEASE));
      jobs := jobs[id := row];
      claimed := Some((Attempt(id, row.attemptCount), row.input));
    }

    /** CompleteSongJob: found is false, and nothing changes, unless the row is still this attempt's. */
    method Complete(a: Attempt, files: Published, now: Time) returns (found: bool)
      requires jobs.Keys == songs.Keys
      modifies this
      ensures Rows() == CompleteJob(old(Rows()), a, files, now)
      ensures found == IsHeld(old(jobs), a) == Current(old(Rows()), a)
      ensures found && files == PublishedFor(a) ==> IsCompleted(old(Rows()), Rows(), a, now)
    {
      found := Current(Rows(), a);
      if found {
        jobs := jobs[a.song := jobs[a.song].Finish(Succeeded, now)];
        songs := songs[a.song := Song(Ready, None, Some(files.full), Some(files.drums), Some(files.bass),
            Some(files.melody), Some(files.vocals))];
      }
    }

    /** RenewSongJob: found is false once the lease has lapsed, even if nobody has reclaimed the row. */
    method Renew(a: Attempt, now: Time) returns (found: bool)
      modifies this
      // Column by column: a renewal in time always finds its row, and gives it ten minutes from now.
      ensures found == (IsHeld(old(jobs), a) && OutlastsNow(old(jobs)[a.song], now))
      ensures found ==> jobs == old(jobs)[a.song := old(jobs)[a.song].(leaseExpiresAt := Some(now + 10 * MINUTE))]
      ensures !found ==> jobs == old(jobs)
      ensures Rows() == RenewJob(old(Rows()), a, now)
      ensures found == (Current(old(Rows()), a) && old(jobs)[a.song].Leased(now))
    {
      found := Current(Rows(), a) && jobs[a.song].Leased(now);
      if found {
        jobs := jobs[a.song := jobs[a.song].(leaseExpiresAt := Some(now + LEASE))];
      }
    }

    /** jobTransitions.fail: RetrySongJob below the attempt limit, FailSongJob at it. */
    method Fail(a: Attempt, now: Time) returns (found: bool, terminal: bool)
      requires jobs.Keys == songs.Keys
      modifies this
      // Column by column: attempt n < 3 puts the job back for 15 n seconds, the third fails it.
      ensures found == IsHeld(old(jobs), a)
      ensures found ==> IsRecorded(old(Rows()), Rows(), a, now)
      ensures !found ==> jobs == old(jobs) && songs == old(songs)
      ensures Rows() == RecordFailure(old(Rows()), a, now)
      ensures found == Current(old(Rows()), a)
      ensures terminal == (found && MAX_ATTEMPTS <= a.number)
    {
      found := Current(Rows(), a);
      terminal := found && MAX_ATTEMPTS <= a.number;
      if found {
        if a.number < MAX_ATTEMPTS {
          jobs := jobs[a.song := jobs[a.song].(state := Queued, leaseExpiresAt := None,
              availableAt := now + Delay(a.number))];
        } else {
          jobs := jobs[a.song := jobs[a.song].Finish(Failed, now)];
          songs := songs[a.song := songs[a.song].Break(FAILED_ERROR)];
        }
      }
    }

    /** FailExpiredSongJobs: fails every exhausted row whose lease has lapsed and returns their inputs. */
    method FailExpired(now: Time) returns (expired: map<SongId, InputName>)
      requires jobs.Keys == songs.Keys
      modifies this
      ensures Rows() == SongJobs.FailExpired(old(Rows()), now)
      ensures expired == map id <- old(jobs) | old(jobs)[id].Expired(now) :: old(jobs)[id].input
      ensures forall id <- old(jobs) :: id in expired <==> IsExhausted(old(jobs)[id], now)
    {
      expired := map[];
      ghost var before := Rows();
      var unseen := jobs.Keys;
      while unseen != {}
        invariant unseen <= before.jobs.Keys
        invariant before.jobs.Keys == jobs.Keys == songs.Keys == before.songs.Keys
        invariant forall id :: Swept(before, now, unseen, Rows(), expired, id)
        decreases |unseen|
      {
        var id :| id in unseen;
        SweepRow(before, now, unseen, Rows(), expired, id);
        unseen := unseen - {id};
        if jobs[id].Expired(now) {
          expired := expired[id := jobs[id].input];
          jobs := jobs[id := jobs[id].Finish(Failed, now)];
          songs := songs[id := songs[id].Break(EXPIRED_ERROR)];
        }
      }
      SweptAll(before, now, Rows(), expired);
    }
  }

  /** Where the sweep of FailExpired stands at one row: done, or still as it was. */
  ghost predicate Swept(before: Db, now: Time, unseen: set<SongId>, rows: Db, expired: map<SongId, InputName>,
      id: SongId)
    requires before.jobs.Keys == before.songs.Keys == rows.jobs.Keys == rows.songs.Keys
  {
    var hit := id in before.jobs && id !in unseen && before.jobs[id].Expired(now);
    && (id in before.jobs ==>
          && rows.jobs[id] == (if hit then before.jobs[id].Finish(Failed, now) else before.jobs[id])
          && rows.songs[id] == (if hit then before.songs[id].Break(EXPIRED_ERROR) else before.songs[id]))
    && (id in expired <==> hit)
    && (hit ==> expired[id] == before.jobs[id].input)
  }

  /** What the sweep does at one row. */
  function SweepStep(now: Time, rows: Db, expired: map<SongId, InputName>, id: SongId): (Db, map<SongId, InputName>)
    requires id in rows.jobs && id in rows.songs
  {
    if rows.jobs[id].Expired(now) then
      (Db(rows.jobs[id := rows.jobs[id].Finish(Failed, now)], rows.songs[id := rows.songs[id].Break(EXPIRED_ERROR)]),
       expired[id := rows.jobs[id].input])
    else (rows, expired)
  }

  lemma SweepRow(before: Db, now: Time, unseen: set<SongId>, rows: Db, expired: map<SongId, InputName>, id: SongId)
    requires before.jobs.Keys == before.songs.Keys == rows.jobs.Keys == rows.songs.Keys && unseen <= rows.jobs.Keys
      && id in unseen
    requires forall other :: Swept(before, now, unseen, rows, expired, other)
    ensures var (next, more) := SweepStep(now, rows, expired, id);
      && next.jobs.Keys == next.songs.Keys == rows.jobs.Keys
      && forall other :: Swept(before, now, unseen - {id}, next, more, other)
  {
    var (next, more) := SweepStep(now, rows, expired, id);
    assert Swept(before, now, unseen, rows, expired, id);
    forall other
      ensures Swept(before, now, unseen - {id}, next, more, other)
    {
      assert Swept(before, now, unseen, rows, expired, other);
    }
  }

  lemma SweptAll(before: Db, now: Time, rows: Db, expired: map<SongId, InputName>)
    requires before.jobs.Keys == before.songs.Keys == rows.jobs.Keys == rows.songs.Keys
    requires forall other :: Swept(before, now, {}, rows, expired, other)
    ensures rows == SongJobs.FailExpired(before, now)
    ensures expired == map id <- before.jobs | before.jobs[id].Expired(now) :: before.jobs[id].input
  {
    forall id
      ensures id in before.jobs ==> rows.jobs[id] == SongJobs.FailExpired(before, now).jobs[id]
      ensures id in before.jobs ==> rows.songs[id] == SongJobs.FailExpired(before, now).songs[id]
      ensures id in expired <==> id in before.jobs && before.jobs[id].Expired(now)
      ensures id in expired ==> expired[id] == before.jobs[id].input
    {
      assert Swept(before, now, {}, rows, expired, id);
    }
  }

  /** jobTransitions.mediaSnapshot, first loop: the rows of the jobs query, the lease test at a later clock reading. */
  method JobReferences(jobs: map<SongId, Job>, now: Time) returns (refs: References)
    ensures refs == ReferencesOf(jobs, now)
  {
    refs := References({}, {}, map[]);
    var unseen := jobs.Keys;
    ghost var seen: map<SongId, Job> := map[];
    assert refs == ReferencesOf(seen, now);
    while unseen != {}
      invariant unseen <= jobs.Keys && seen.Keys == jobs.Keys - unseen
      invariant forall id <- seen :: seen[id] == jobs[id]
      invariant refs == ReferencesOf(seen, now)
      decreases |unseen|
    {
      var id :| id in unseen;
      refs := AddReference(refs, seen, id, jobs[id], now);
      seen := seen[id := jobs[id]];
      unseen := unseen - {id};
    }
    assert seen == jobs;
  }

  /** The loop's body. */
  method AddReference(refs: References, ghost seen: map<SongId, Job>, id: SongId, job: Job, now: Time)
      returns (next: References)
    requires id !in seen && refs == ReferencesOf(seen, now)
    ensures next == ReferencesOf(seen[id := job], now)
  {
    AddJob(seen, id, job, now);
    next := refs;
    if job.Live() {
      next := next.(inputs := next.inputs + {job.input});
    } else {
      next := next.(terminalInputs := next.terminalInputs + {job.input});
    }
    if job.Leased(now) {
      next := next.(active := next.active[id := job.attemptCount]);
    }
  }

  lemma AddJob(seen: map<SongId, Job>, id: SongId, job: Job, now: Time)
    requires id !in seen
    ensures var refs := ReferencesOf(seen, now);
      ReferencesOf(seen[id := job], now)
      == References(refs.inputs + (if job.Live() then {job.input} else {}),
                    refs.terminalInputs + (if job.Live() then {} else {job.input}),
                    if job.Leased(now) then refs.active[id := job.attemptCount] else refs.active)
  {
    var more := seen[id := job];
    forall other <- seen
      ensures more[other] == seen[other]
    {
    }
    assert more[id] == job;
  }

  /** jobTransitions.mediaSnapshot, second loop: the non-NULL path columns of every song. */
  method OutputReferences(songs: map<SongId, Song>) returns (outputs: set<AudioPath>)
    ensures outputs == OutputPaths(songs)
    ensures forall path :: path in outputs <==> exists id <- songs :: IsColumnOf(songs[id], path)
  {
    outputs := {};
    var unseen := songs.Keys;
    ghost var seen: map<SongId, Song> := map[];
    while unseen != {}
      invariant unseen <= songs.Keys && seen.Keys == songs.Keys - unseen
      invariant forall id <- seen :: seen[id] == songs[id]
      invariant outputs == OutputPaths(seen)
      decreases |unseen|
    {
      var id :| id in unseen;
      outputs := AddOutputs(outputs, seen, id, songs[id]);
      seen := seen[id := songs[id]];
      unseen := unseen - {id};
    }
    assert seen == songs;
    forall path {
      PathsOnColumns(songs, path);
    }
  }

  /** The loop's body. */
  method AddOutputs(outputs: set<AudioPath>, ghost seen: map<SongId, Song>, id: SongId, song: Song)
      returns (next: set<AudioPath>)
    requires id !in seen && outputs == OutputPaths(seen)
    ensures next == OutputPaths(seen[id := song])
  {
    AddSong(seen, id, song);
    next := outputs + PathsOf(song);
  }

  lemma AddSong(seen: map<SongId, Song>, id: SongId, song: Song)
    requires id !in seen
    ensures OutputPaths(seen[id := song]) == OutputPaths(seen) + PathsOf(song)
  {
    var more := seen[id := song];
    forall path
      ensures path in OutputPaths(more) <==> path in OutputPaths(seen) + PathsOf(song)
    {
      if path in OutputPaths(seen) {
        var other :| other in seen && path in PathsOf(seen[other]);
        assert more[other] == seen[other];
      }
      if path in PathsOf(song) {
        assert path in PathsOf(more[id]);
      }
    }
  }
}
