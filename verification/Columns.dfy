/** The statements column by column, in the schema's terms: a second account, sharing no definition with the first. */
module Columns {
  import opened Prelude
  import opened SongJobs
  import opened Snapshots

  /** The WHERE clause of ClaimSongJob. */
  ghost predicate IsDue(j: Job, now: Time) {
    && j.attemptCount < 3
    && (|| (j.state == Queued && j.availableAt <= now)
        || (j.state == Running && exists end: Time :: j.leaseExpiresAt == Some(end) && end <= now))
  }

  /** Its ORDER BY: available_at, then created_at, then song_id. */
  ghost predicate IsFirst(jobs: map<SongId, Job>, now: Time, id: SongId)
    requires id in jobs
  {
    forall other <- jobs :: other != id && IsDue(jobs[other], now) ==>
      && jobs[id].availableAt <= jobs[other].availableAt
      && (jobs[id].availableAt == jobs[other].availableAt ==> jobs[id].createdAt <= jobs[other].createdAt)
      && (jobs[id].availableAt == jobs[other].availableAt && jobs[id].createdAt == jobs[other].createdAt ==> id < other)
  }

  /** The row is RUNNING under this attempt. */
  ghost predicate IsHeld(jobs: map<SongId, Job>, a: Attempt) {
    a.song in jobs && jobs[a.song].state == Running && jobs[a.song].attemptCount == a.number
  }

  /** The row's lease ends after `now`. */
  ghost predicate OutlastsNow(j: Job, now: Time) {
    exists end: Time :: j.leaseExpiresAt == Some(end) && now < end
  }

  /** A RUNNING row that has used up its attempts, with its lease over. */
  ghost predicate IsExhausted(j: Job, now: Time) {
    j.state == Running && 3 <= j.attemptCount && exists end: Time :: j.leaseExpiresAt == Some(end) && end <= now
  }

  /** The attempt's job has succeeded and its song is READY under the attempt's five paths. */
  ghost predicate IsCompleted(before: Db, after: Db, a: Attempt, now: Time)
    requires a.song in before.jobs
  {
    var j := before.jobs[a.song];
    && after.jobs == before.jobs[a.song :=
         Job(j.input, Succeeded, a.number, j.availableAt, None, j.createdAt, j.startedAt, Some(now))]
    && after.songs == before.songs[a.song :=
         Song(Ready, None, Some(AudioPath(a, Full)), Some(AudioPath(a, Drums)), Some(AudioPath(a, Bass)),
              Some(AudioPath(a, Other)), Some(AudioPath(a, Vocals)))]
  }

  /** The attempt's job is back in the queue for 15 seconds times its number. */
  ghost predicate IsRetried(before: Db, after: Db, a: Attempt, now: Time)
    requires a.song in before.jobs
  {
    var j := before.jobs[a.song];
    && after.songs == before.songs
    && after.jobs == before.jobs[a.song :=
         Job(j.input, Queued, a.number, now + 15 * a.number * SECOND, None, j.createdAt, j.startedAt, j.finishedAt)]
  }

  /** The attempt's job has failed for good, and its song with it. */
  ghost predicate IsFailed(before: Db, after: Db, a: Attempt, error: string, now: Time)
    requires a.song in before.jobs && a.song in before.songs
  {
    var j, s := before.jobs[a.song], before.songs[a.song];
    && after.jobs == before.jobs[a.song :=
         Job(j.input, Failed, a.number, j.availableAt, None, j.createdAt, j.startedAt, Some(now))]
    && after.songs == before.songs[a.song := Song(Broken, Some(error), s.full, s.drums, s.bass, s.melody, s.vocals)]
  }

  const GAVE_UP := "Song processing failed after 3 attempts."
  const RAN_OUT := "Song processing stopped after 3 attempts."

  /** What recording a failure does to the tables. */
  ghost predicate IsRecorded(before: Db, after: Db, a: Attempt, now: Time)
    requires a.song in before.jobs && a.song in before.songs
  {
    if a.number < 3 then IsRetried(before, after, a, now) else IsFailed(before, after, a, GAVE_UP, now)
  }

  /** The candidate is the first due row in claim order, and there is one whenever a row is due first. */
  lemma CandidateIsFirst(db: Db, now: Time, id: SongId)
    ensures IsCandidate(db, now, id) <==> id in db.jobs && IsDue(db.jobs[id], now) && IsFirst(db.jobs, now, id)
  {
    forall other <- db.jobs
      ensures db.jobs[other].Claimable(now) <==> IsDue(db.jobs[other], now)
    {
    }
  }

  lemma EnqueueOnColumns(db: Db, id: SongId, input: InputName, begun: Time)
    ensures var next := EnqueueJob(db, id, input, begun);
      && next.jobs == db.jobs[id := Job(input, Queued, 0, begun, None, begun, None, None)]
      && next.songs == db.songs[id := Song(Processing, None, None, None, None, None, None)]
  {
  }

  /** A claim counts the attempt, grants ten minutes, and dates the start of the first attempt only. */
  lemma ClaimOnColumns(db: Db, now: Time, id: SongId)
    requires id in db.jobs
    ensures var j := db.jobs[id];
      var started := if j.attemptCount == 0 then Some(now) else j.startedAt;
      Consistent(db) ==>
        ClaimRow(db, id, now) == db.(jobs := db.jobs[id :=
          Job(j.input, Running, j.attemptCount + 1, j.availableAt, Some(now + 10 * MINUTE), j.createdAt, started,
              j.finishedAt)])
  {
    if Consistent(db) {
      assert RowOk(db, id);
    }
  }

  lemma CompleteOnColumns(db: Db, a: Attempt, now: Time)
    requires Consistent(db)
    ensures var next := Exec(db, now, Complete(a));
      if IsHeld(db.jobs, a) then IsCompleted(db, next, a, now) else next == db
  {
    assert RowOk(db, a.song);
  }

  /** A renewal in time always succeeds, and gives ten minutes from now. */
  lemma RenewOnColumns(db: Db, a: Attempt, now: Time)
    ensures var next := Exec(db, now, Renew(a));
      if IsHeld(db.jobs, a) && OutlastsNow(db.jobs[a.song], now) then
        next == db.(jobs := db.jobs[a.song := db.jobs[a.song].(leaseExpiresAt := Some(now + 10 * MINUTE))])
      else next == db
  {
  }

  /** After attempt n < 3 fails the job waits 15 n seconds; after the third it has failed for good. */
  lemma FailureOnColumns(db: Db, a: Attempt, now: Time)
    requires Consistent(db)
    ensures var next := Exec(db, now, Record(a));
      if IsHeld(db.jobs, a) then IsRecorded(db, next, a, now) else next == db
  {
    assert RowOk(db, a.song);
  }

  /** Exhausted jobs fail with their songs, and nothing else changes. */
  lemma ExpireOnColumns(db: Db, now: Time, id: SongId)
    requires Consistent(db) && id in db.jobs
    ensures var next, j, s := Exec(db, now, Expire), db.jobs[id], db.songs[id];
      && next.jobs.Keys == db.jobs.Keys && next.songs.Keys == db.songs.Keys
      && if IsExhausted(j, now) then
           && next.jobs[id]
              == Job(j.input, Failed, j.attemptCount, j.availableAt, None, j.createdAt, j.startedAt, Some(now))
           && next.songs[id] == Song(Broken, Some(RAN_OUT), s.full, s.drums, s.bass, s.melody, s.vocals)
         else next.jobs[id] == j && next.songs[id] == s
  {
    assert RowOk(db, id);
  }

  /** The snapshot protects the input of every QUEUED and RUNNING job, offers up every other job's, and knows every
      attempt under an unlapsed lease. */
  lemma SnapshotOnColumns(jobs: map<SongId, Job>, now: Time)
    ensures var refs := ReferencesOf(jobs, now);
      && (forall input ::
            && (input in refs.inputs <==>
                  exists id <- jobs ::
                    jobs[id].input == input && (jobs[id].state == Queued || jobs[id].state == Running))
            && (input in refs.terminalInputs <==>
                  exists id <- jobs ::
                    jobs[id].input == input && (jobs[id].state == Succeeded || jobs[id].state == Failed)))
      && (forall id, number ::
            id in refs.active && refs.active[id] == number <==>
            IsHeld(jobs, Attempt(id, number)) && OutlastsNow(jobs[id], now))
  {
  }

  /** One of the song's five path columns holds the path. */
  predicate IsColumnOf(s: Song, path: AudioPath) {
    || s.full == Some(path) || s.drums == Some(path) || s.bass == Some(path) || s.melody == Some(path)
    || s.vocals == Some(path)
  }

  /** The snapshot keeps the path in every column of every song. */
  lemma PathsOnColumns(songs: map<SongId, Song>, path: AudioPath)
    ensures path in OutputPaths(songs) <==> exists id <- songs :: IsColumnOf(songs[id], path)
  {
    forall id <- songs
      ensures path in PathsOf(songs[id]) <==> IsColumnOf(songs[id], path)
    {
    }
  }
}
