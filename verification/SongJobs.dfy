/** The songs and song_jobs tables, and every statement that changes them, as functions of the rows. */
module SongJobs {
  import opened Prelude

  /** A uuid, by its place in the order PostgreSQL sorts uuids in. */
  type SongId = nat

  /** The random part of the name of a file in the incoming directory. */
  type InputName = nat

  const MAX_ATTEMPTS: nat := 3
  const LEASE: Time := 600_000_000
  const RETRY_DELAY: Time := 15_000_000

  const EXPIRED_ERROR := "Song processing stopped after 3 attempts."
  const FAILED_ERROR := "Song processing failed after 3 attempts."

  /** One claim of one song. Directories and requests carry it; the number is the fencing token. */
  datatype Attempt = Attempt(song: SongId, number: nat)

  datatype AudioFile = Full | Drums | Bass | Other | Vocals

  datatype AudioPath = AudioPath(directory: Attempt, file: AudioFile)

  datatype Published = Published(full: AudioPath, drums: AudioPath, bass: AudioPath, melody: AudioPath,
      vocals: AudioPath)

  function PublishedFor(a: Attempt): Published {
    Published(AudioPath(a, Full), AudioPath(a, Drums), AudioPath(a, Bass), AudioPath(a, Other), AudioPath(a, Vocals))
  }

  datatype JobState = Queued | Running | Succeeded | Failed

  datatype Job = Job(
    input: InputName,
    state: JobState,
    attemptCount: nat,
    availableAt: Time,
    leaseExpiresAt: Option<Time>,
    createdAt: Time,
    startedAt: Option<Time>,
    finishedAt: Option<Time>)
  {
    predicate Live() {
      state.Queued? || state.Running?
    }

    predicate Claimable(now: Time) {
      attemptCount < MAX_ATTEMPTS
      && ((state.Queued? && availableAt <= now)
          || (state.Running? && leaseExpiresAt.Some? && leaseExpiresAt.value <= now))
    }

    predicate Expired(now: Time) {
      state.Running? && MAX_ATTEMPTS <= attemptCount && leaseExpiresAt.Some? && leaseExpiresAt.value <= now
    }

    /** RUNNING under a lease that has not lapsed. */
    predicate Leased(now: Time) {
      state.Running? && leaseExpiresAt.Some? && now < leaseExpiresAt.value
    }

    function Finish(to: JobState, now: Time): Job {
      this.(state := to, leaseExpiresAt := None, finishedAt := Some(now))
    }
  }

  datatype SongStatus = Processing | Ready | Broken

  datatype Song = Song(
    status: SongStatus,
    processingError: Option<string>,
    full: Option<AudioPath>,
    drums: Option<AudioPath>,
    bass: Option<AudioPath>,
    melody: Option<AudioPath>,
    vocals: Option<AudioPath>)
  {
    function Break(error: string): Song {
      this.(status := Broken, processingError := Some(error))
    }
  }

  const NEW_SONG := Song(Processing, None, None, None, None, None, None)

  datatype Db = Db(jobs: map<SongId, Job>, songs: map<SongId, Song>)

  const EMPTY_DB := Db(map[], map[])

  // ----- The statements -----

  /** The upload's two INSERTs, committed together. Columns default to the start of the transaction. */
  function EnqueueJob(db: Db, id: SongId, input: InputName, begun: Time): Db {
    Db(db.jobs[id := NewJob(input, begun)], db.songs[id := NEW_SONG])
  }

  function NewJob(input: InputName, begun: Time): Job {
    Job(input, Queued, 0, begun, None, begun, None, None)
  }

  /** The order of ClaimSongJob: available_at, created_at, song_id. */
  predicate Before(a: SongId, ja: Job, b: SongId, jb: Job) {
    ja.availableAt < jb.availableAt
    || (ja.availableAt == jb.availableAt
        && (ja.createdAt < jb.createdAt || (ja.createdAt == jb.createdAt && a < b)))
  }

  /** The row ClaimSongJob selects: the first claimable one. */
  ghost predicate IsCandidate(db: Db, now: Time, id: SongId) {
    && id in db.jobs && db.jobs[id].Claimable(now)
    && forall other <- db.jobs :: other != id && db.jobs[other].Claimable(now) ==>
        Before(id, db.jobs[id], other, db.jobs[other])
  }

  function ClaimRow(db: Db, id: SongId, now: Time): Db
    requires id in db.jobs
  {
    var j := db.jobs[id];
    var started := if j.startedAt.None? then Some(now) else j.startedAt;
    var count, lease := j.attemptCount + 1, Some(now + LEASE);
    var row := j.(state := Running, attemptCount := count, leaseExpiresAt := lease, startedAt := started);
    db.(jobs := db.jobs[id := row])
  }

  /** The guard shared by complete, renew, retry and fail: the row still belongs to this attempt. */
  predicate Current(db: Db, a: Attempt) {
    a.song in db.jobs && db.jobs[a.song].attemptCount == a.number && db.jobs[a.song].state.Running?
  }

  function CompleteJob(db: Db, a: Attempt, files: Published, now: Time): Db {
    if !Current(db, a) then db
    else
      Db(db.jobs[a.song := db.jobs[a.song].Finish(Succeeded, now)],
         if a.song in db.songs then
           db.songs[a.song := Song(Ready, None, Some(files.full), Some(files.drums), Some(files.bass),
               Some(files.melody), Some(files.vocals))]
         else db.songs)
  }

  function RenewJob(db: Db, a: Attempt, now: Time): Db {
    if Current(db, a) && db.jobs[a.song].Leased(now) then
      db.(jobs := db.jobs[a.song := db.jobs[a.song].(leaseExpiresAt := Some(now + LEASE))])
    else db
  }

  function RetryJob(db: Db, a: Attempt, delay: Time, now: Time): Db {
    if !Current(db, a) then db
    else db.(jobs := db.jobs[a.song :=
        db.jobs[a.song].(state := Queued, leaseExpiresAt := None, availableAt := now + delay)])
  }

  function FailJob(db: Db, a: Attempt, error: string, now: Time): Db {
    if !Current(db, a) then db
    else
      Db(db.jobs[a.song := db.jobs[a.song].Finish(Failed, now)],
         if a.song in db.songs then db.songs[a.song := db.songs[a.song].Break(error)] else db.songs)
  }

  function Delay(number: nat): Time {
    RETRY_DELAY * number
  }

  /** jobTransitions.fail: retry while attempts remain, otherwise fail for good. */
  function RecordFailure(db: Db, a: Attempt, now: Time): Db {
    if a.number < MAX_ATTEMPTS then RetryJob(db, a, Delay(a.number), now)
    else FailJob(db, a, FAILED_ERROR, now)
  }

  function FailExpired(db: Db, now: Time): Db {
    Db(map id <- db.jobs :: if db.jobs[id].Expired(now) then db.jobs[id].Finish(Failed, now) else db.jobs[id],
       map id <- db.songs :: if id in db.jobs && db.jobs[id].Expired(now) then db.songs[id].Break(EXPIRED_ERROR)
           else db.songs[id])
  }

  /** Everything a client can ask of the two tables, with the arguments the Go code passes. */
  datatype Statement =
    | Enqueue(id: SongId, input: InputName, begun: Time)
    | Claim(id: SongId)
    | Complete(attempt: Attempt)
    | Renew(attempt: Attempt)
    | Record(attempt: Attempt)
    | Expire

  ghost predicate CanExec(db: Db, now: Time, st: Statement) {
    match st
    case Enqueue(id, _, begun) => id !in db.jobs && begun <= now
    case Claim(id) => IsCandidate(db, now, id)
    case _ => true
  }

  function Exec(db: Db, now: Time, st: Statement): Db
    requires st.Claim? ==> st.id in db.jobs
  {
    match st
    case Enqueue(id, input, begun) => EnqueueJob(db, id, input, begun)
    case Claim(id) => ClaimRow(db, id, now)
    case Complete(a) => CompleteJob(db, a, PublishedFor(a), now)
    case Renew(a) => RenewJob(db, a, now)
    case Record(a) => RecordFailure(db, a, now)
    case Expire => FailExpired(db, now)
  }

  // ----- The joint invariant of the two tables -----

  predicate HasAudioOf(s: Song, a: Attempt) {
    s.full == Some(AudioPath(a, Full)) && s.drums == Some(AudioPath(a, Drums)) && s.bass == Some(AudioPath(a, Bass))
    && s.melody == Some(AudioPath(a, Other)) && s.vocals == Some(AudioPath(a, Vocals))
  }

  predicate HasNoAudio(s: Song) {
    s.full.None? && s.drums.None? && s.bass.None? && s.melody.None? && s.vocals.None?
  }

  predicate RowsAgree(id: SongId, j: Job, s: Song) {
    && (j.Live() <==> s.status.Processing?)
    && (j.state.Succeeded? <==> s.status.Ready?)
    && (j.state.Failed? <==> s.status.Broken?)
    && (s.status.Broken? <==> s.processingError.Some?)
    && (if s.status.Ready? then HasAudioOf(s, Attempt(id, j.attemptCount)) else HasNoAudio(s))
    && (j.leaseExpiresAt.Some? <==> j.state.Running?)
    && (j.startedAt.Some? <==> 0 < j.attemptCount)
    && (j.finishedAt.Some? <==> !j.Live())
    && (j.state.Queued? ==> j.attemptCount < MAX_ATTEMPTS)
    && (j.state.Running? || j.state.Succeeded? ==> 1 <= j.attemptCount <= MAX_ATTEMPTS)
    && (j.state.Failed? ==> j.attemptCount == MAX_ATTEMPTS)
  }

  predicate RowOk(db: Db, id: SongId) {
    id in db.jobs ==> id in db.songs && RowsAgree(id, db.jobs[id], db.songs[id])
  }

  ghost predicate Consistent(db: Db) {
    db.jobs.Keys == db.songs.Keys && forall id :: RowOk(db, id)
  }

  lemma ExecKeepsConsistent(db: Db, now: Time, st: Statement)
    requires Consistent(db) && CanExec(db, now, st)
    ensures Consistent(Exec(db, now, st))
  {
    ExecKeepsKeys(db, now, st);
    forall id
      ensures RowOk(Exec(db, now, st), id)
    {
      if id in Exec(db, now, st).jobs {
        ExecKeepsRow(db, now, st, id);
      }
    }
  }

  lemma ExecKeepsKeys(db: Db, now: Time, st: Statement)
    requires Consistent(db) && CanExec(db, now, st)
    ensures var next := Exec(db, now, st);
            && next.jobs.Keys == next.songs.Keys
            && next.jobs.Keys == db.jobs.Keys + if st.Enqueue? then {st.id} else {}
  {
    match st
    case Enqueue(id, input, begun) =>
      assert EnqueueJob(db, id, input, begun).jobs.Keys == db.jobs.Keys + {id};
      assert EnqueueJob(db, id, input, begun).songs.Keys == db.songs.Keys + {id};
    case Claim(id) =>
      assert ClaimRow(db, id, now).jobs.Keys == db.jobs.Keys;
    case Complete(a) =>
      assert CompleteJob(db, a, PublishedFor(a), now).jobs.Keys == db.jobs.Keys;
      assert CompleteJob(db, a, PublishedFor(a), now).songs.Keys == db.songs.Keys;
    case Renew(a) =>
      assert RenewJob(db, a, now).jobs.Keys == db.jobs.Keys;
    case Record(a) =>
      assert RecordFailure(db, a, now).jobs.Keys == db.jobs.Keys;
      assert RecordFailure(db, a, now).songs.Keys == db.songs.Keys;
    case Expire =>
      assert FailExpired(db, now).jobs.Keys == db.jobs.Keys;
      assert FailExpired(db, now).songs.Keys == db.songs.Keys;
  }

  lemma ExecKeepsRow(db: Db, now: Time, st: Statement, id: SongId)
    requires Consistent(db) && CanExec(db, now, st)
    requires id in Exec(db, now, st).jobs
    ensures var next := Exec(db, now, st);
            id in next.songs && RowsAgree(id, next.jobs[id], next.songs[id])
  {
    ExecKeepsKeys(db, now, st);
    if id in db.jobs {
      assert RowOk(db, id);
    }
    match st
    case Enqueue(_, _, _) =>
    case Claim(_) =>
    case Complete(_) =>
    case Renew(_) =>
    case Record(_) =>
    case Expire =>
  }

  // ----- Fencing -----

  /** The attempt has been handed out: the row's counter has reached its number. */
  predicate Handed(db: Db, a: Attempt) {
    a.song in db.jobs && 1 <= a.number <= db.jobs[a.song].attemptCount
  }

  /** A request from an attempt that no longer holds the row changes nothing, and every other complete, retry or fail
      changes its row. */
  lemma StaleRequestIsNoOp(db: Db, now: Time, st: Statement)
    requires Consistent(db)
    requires st.Complete? || st.Renew? || st.Record?
    ensures !Current(db, st.attempt) ==> Exec(db, now, st) == db
    ensures !st.Renew? ==> (Exec(db, now, st) == db <==> !Current(db, st.attempt))
    ensures st.Renew? && Exec(db, now, st) != db ==> Current(db, st.attempt) && db.jobs[st.attempt.song].Leased(now)
  {
    var a := st.attempt;
    if Current(db, a) && !st.Renew? {
      assert RowOk(db, a.song);
      assert !Exec(db, now, st).jobs[a.song].state.Running?;
    }
  }

  /** What no statement ever does to a row: lose it, change its input, lower its counter, or touch it once it is
      terminal. */
  ghost predicate Evolves(db: Db, next: Db) {
    && db.jobs.Keys <= next.jobs.Keys && db.songs.Keys <= next.songs.Keys
    && forall id <- db.jobs ::
         && next.jobs[id].input == db.jobs[id].input
         && db.jobs[id].attemptCount <= next.jobs[id].attemptCount
         && (!db.jobs[id].Live() ==>
             next.jobs[id] == db.jobs[id] && (id in db.songs ==> next.songs[id] == db.songs[id]))
  }

  lemma ExecEvolves(db: Db, now: Time, st: Statement)
    requires Consistent(db) && CanExec(db, now, st)
    ensures Evolves(db, Exec(db, now, st))
  {
    ExecKeepsKeys(db, now, st);
  }

  /** What a statement does to a row that is there before it. */
  function RowAfter(id: SongId, j: Job, now: Time, st: Statement): Job {
    var mine := j.state.Running?;
    match st
    case Enqueue(_, _, _) => j
    case Claim(other) =>
      if other != id then j
      else j.(state := Running, attemptCount := j.attemptCount + 1, leaseExpiresAt := Some(now + LEASE),
              startedAt := if j.startedAt.None? then Some(now) else j.startedAt)
    case Complete(a) => if mine && a == Attempt(id, j.attemptCount) then j.Finish(Succeeded, now) else j
    case Renew(a) =>
      if j.Leased(now) && a == Attempt(id, j.attemptCount) then j.(leaseExpiresAt := Some(now + LEASE)) else j
    case Record(a) =>
      if !mine || a != Attempt(id, j.attemptCount) then j
      else if a.number < MAX_ATTEMPTS then
          j.(state := Queued, leaseExpiresAt := None, availableAt := now + Delay(a.number))
      else j.Finish(Failed, now)
    case Expire => if j.Expired(now) then j.Finish(Failed, now) else j
  }

  lemma ExecActsByRow(db: Db, now: Time, st: Statement, id: SongId)
    requires CanExec(db, now, st) && id in db.jobs
    ensures id in Exec(db, now, st).jobs && Exec(db, now, st).jobs[id] == RowAfter(id, db.jobs[id], now, st)
  {
    match st
    case Enqueue(_, _, _) =>
    case Claim(_) =>
    case Complete(_) =>
    case Renew(_) =>
    case Record(_) =>
    case Expire =>
  }

  /** A song becomes READY only through the complete request of the attempt that currently runs it. */
  lemma OnlyCompleteMakesReady(db: Db, now: Time, st: Statement, id: SongId)
    requires Consistent(db) && CanExec(db, now, st)
    requires id in Exec(db, now, st).songs && Exec(db, now, st).songs[id].status.Ready?
    ensures (id in db.songs && db.songs[id].status.Ready? && Exec(db, now, st).jobs[id] == db.jobs[id])
         || (st.Complete? && st.attempt.song == id && Current(db, st.attempt))
  {
    var next := Exec(db, now, st);
    if id in db.jobs {
      assert RowOk(db, id);
      ExecEvolves(db, now, st);
    }
  }

  lemma OnlyEnqueueAddsRows(db: Db, now: Time, st: Statement, id: SongId)
    requires Consistent(db) && CanExec(db, now, st)
    requires id in Exec(db, now, st).jobs && id !in db.jobs
    ensures st.Enqueue? && st.id == id && Exec(db, now, st).jobs[id] == NewJob(st.input, st.begun)
  {
    ExecKeepsKeys(db, now, st);
  }

  // ----- Claiming -----

  /** The moment from which a live row is either claimable or ready to be failed as expired. */
  function DueAt(j: Job): Time {
    if j.state.Queued? then j.availableAt else if j.leaseExpiresAt.Some? then j.leaseExpiresAt.value else 0
  }

  /** No live job is stranded: from its due time on, exactly one of claim and fail-expired accepts it; before it,
      neither does. */
  lemma NoJobIsStranded(db: Db, now: Time, id: SongId)
    requires Consistent(db) && id in db.jobs
    ensures db.jobs[id].Live() ==>
      (DueAt(db.jobs[id]) <= now <==> db.jobs[id].Claimable(now) || db.jobs[id].Expired(now))
    ensures !(db.jobs[id].Claimable(now) && db.jobs[id].Expired(now))
    ensures !db.jobs[id].Live() ==> !db.jobs[id].Claimable(now) && !db.jobs[id].Expired(now)
  {
    assert RowOk(db, id);
  }
}
