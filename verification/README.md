# Aux Battles: the song-job queue, its media files and the rate limiter

A model of the part of the server in which several processes share state that is not updated together, and proofs of
what survives every interleaving of them:

* the **job queue**: workers claim song jobs under a ten-minute lease, renew it, and complete, retry or fail the job; the
  attempt count is the fencing token;
* the **media files** those jobs govern: staged inputs, work directories and published outputs, moved and removed by
  uploads, workers and cleanup passes, any of which may stall, crash or lose a reply at any point;
* the **per-address rate limiter**, whose table of token buckets is swept while it is in use.

Verify with `dafny verify dfyconfig.toml`.

## How the model is built

| file | content |
|---|---|
| `Prelude.dfy` | optional values, the clock in microseconds, sums over maps |
| `SongJobs.dfy` | the `songs` and `song_jobs` rows and every statement on them as functions; the joint invariant; fencing; claim order |
| `Columns.dfy` | the statements and the snapshot column by column, a second account that shares no definition with the first |
| `QueueRuns.dfy` | runs of the queue: absorption, one hand-out per attempt, the lease log, termination |
| `Schedule.dfy` | which row a claim of a run takes, and when a failed attempt's job comes back |
| `Fairness.dfy` | overtaking and unavailability over whole runs |
| `JobTable.dfy` | the tables changed in place, one SQL statement a method; the loops of the media snapshot |
| `Snapshots.dfy` | what cleanup reads from the tables |
| `Protocol.dfy` | the whole system as a state machine: every SQL statement, file operation and decision is one step |
| `Holders.dfy`, `Cleaners.dfy`, `Outputs.dfy`, `Inputs.dfy` | the inductive invariant, one named predicate an entity |
| `Guarantees.dfy` | what the invariant gives for every run |
| `Delays.dfy` | runs that break the guarantees beyond the delay conditions, so that these are exact |
| `Runner.dfy` | one worker's pass as imperative code over the tables and files |
| `Publish.dfy` | one attempt's files: making, moving and renaming them |
| `Upload.dfy` | an upload from its form to its committed job |
| `Refinement.dfy` | what the worker, an upload and a cleanup do to rows and files, done by enabled steps of the state machine |
| `Names.dfy` | the names of attempt directories and staged inputs |
| `MediaCleanup.dfy` | a cleanup pass as loops over named directory entries; quiescence |
| `RateLimit.dfy`, `IpLimiter.dfy` | the limiter as functions with its laws, and as objects updated in place |

`Protocol.Step` interleaves uploads, workers, cleanup passes, the clock, and *deliveries*: a request whose sender got no
reply stays in flight and may be applied at any later moment, or never. A worker can crash between any two steps. The
imperative modules are tied to the functions and to the state machine in three ways. Each `JobTable.Table` method ensures
that the new rows are the statement's function of the old ones, and says the same column by column. `Refinement` shows that
what the worker, an upload and a cleanup pass do to rows and files, enabled steps of the state machine can do too, so the
guarantees over all runs cover them. `MediaCleanup.SweepGuardsAgree` equates what the cleanup loops pick with what the state
machine lets a cleanup pick.

## Hypotheses

* The database and every process read one clock, which never goes back.
* Each SQL statement, and the upload's transaction at its commit, takes effect at one instant. `FOR UPDATE SKIP LOCKED`
  becomes the choice of the first claimable row.
* `os.CreateTemp` never draws a name twice, and the database never draws a uuid twice. Nothing in the schema makes
  `input_path` unique; `MediaCleanup.SharedInputIsRemoved` shows that a pass spares a live job's input exactly when no
  finished job names the same file.
* `Protocol.Bounds` names six delays, none of which the code enforces except the third:

  | delay | from | to |
  |---|---|---|
  | `idle` | a write of an upload to its file | its next write |
  | `stage` | an upload's last write | its commit |
  | `attempt` | making an attempt's work directory | the worker, about to complete, finding its deadline not passed |
  | `publish` | the last file moved into the result directory | the applied complete |
  | `listJobs`, `listOutputs` | cleanup's jobs query, its outputs query | the moment it fixes its cutoff |

  READY audio is safe exactly when `publish` plus the outputs query's delay is at most the cleanup interval, and so is
  `attempt`; live inputs exactly when `stage` plus `listJobs` is, and so is `idle`. `Delays` proves both directions.
* `attempt` is at most the worker's configured attempt timeout: the deadline is set before the work directory is made
  (`internal/worker/worker.go:153-158`), and a worker that finds it passed discards its output and never completes
  (`internal/worker/worker.go:172-175`). The instant between the deadline and its timer's firing counts toward `attempt`. So
  a timeout of at most an hour meets the condition on `attempt`, and the default of thirty minutes does. With a longer
  one a worker may publish, in time, from a directory that a cleanup is tearing down: cleanup inspects a directory and
  removes it in two steps, and `os.RemoveAll` removes it piece by piece.

## Model

| member | source | states |
|---|---|---|
| SongJobs.ExecKeepsConsistent | db/queries/song_jobs.sql:1-98 | Every statement keeps the joint invariant of the two tables: QUEUED or RUNNING iff the song is PROCESSING, SUCCEEDED iff READY with the five paths of the last attempt, FAILED iff FAILED with an error, a lease iff RUNNING, and the ranges of the attempt count in each state |
| SongJobs.StaleRequestIsNoOp | db/queries/song_jobs.sql:27-81 | Complete, retry and fail change the tables exactly when the row is RUNNING under the caller's attempt; a renewal changes them only if its lease has not lapsed either |
| SongJobs.ExecEvolves | db/queries/song_jobs.sql:5-98 | No statement loses a row, changes its input, lowers its attempt count, or touches a finished job or its song |
| SongJobs.ExecActsByRow | db/queries/song_jobs.sql:5-98 | What a statement does to one job depends on that job's row alone |
| SongJobs.OnlyCompleteMakesReady | db/queries/song_jobs.sql:27-46 | A song turns READY only through the complete request of the attempt that runs it |
| SongJobs.OnlyEnqueueAddsRows | db/queries/song_jobs.sql:1-3 | A new job row is a fresh QUEUED one from an enqueue |
| SongJobs.NoJobIsStranded | db/queries/song_jobs.sql:5-25 | From its due time on a live job is accepted by exactly one of claim and fail-expired, before it by neither, and a finished job never, whether or not its worker still exists |
| Columns.CandidateIsFirst | db/queries/song_jobs.sql:6-15 | A row is the candidate exactly if it is due and no other due row has an earlier available_at, on a tie an earlier created_at, on a further tie a smaller id |
| Columns.EnqueueOnColumns | db/queries/song_jobs.sql:1-3 | A new job is QUEUED with no attempt used, available and created at the start of its transaction, and its song PROCESSING |
| Columns.ClaimOnColumns | db/queries/song_jobs.sql:16-25 | A claim makes the row RUNNING under the next attempt, leases it for ten minutes, dates the start at the first attempt only and keeps the other columns |
| Columns.CompleteOnColumns | db/queries/song_jobs.sql:27-46 | A row RUNNING under the attempt turns SUCCEEDED and its song READY with the five paths of that attempt, each in its own column; for any other nothing changes |
| Columns.RenewOnColumns | db/queries/song_jobs.sql:48-55 | A row RUNNING under the attempt with an unlapsed lease always gets ten minutes from now, and no other row changes |
| Columns.FailureOnColumns | internal/worker/job_transitions.go:92-110 | After attempt n below three the row is QUEUED and available 15 n seconds from now; after the third it is FAILED and its song too, with the error text |
| Columns.ExpireOnColumns | db/queries/song_jobs.sql:83-98 | Exactly the RUNNING rows with three attempts used and a lapsed lease turn FAILED, with their songs |
| Columns.SnapshotOnColumns | internal/worker/job_transitions.go:41-53 | The snapshot needs the inputs of the QUEUED and RUNNING rows, offers up those of the others, and has every attempt under an unlapsed lease and no other |
| Columns.PathsOnColumns | internal/worker/job_transitions.go:54-63 | The paths it protects are those in any of the five columns of any song |
| QueueRuns.AlwaysConsistent | db/migrations/00002_song_jobs.sql:2-16 | The joint invariant holds in every state of every run from empty tables |
| QueueRuns.TerminalIsAbsorbing | db/queries/song_jobs.sql:27-46 | Once SUCCEEDED or FAILED, a job and its song never change again |
| QueueRuns.AttemptsAreHandedOutOnce | db/queries/song_jobs.sql:16-25 | No two claims of a run hand out the same attempt |
| QueueRuns.LeasesNeverOverlap | db/queries/song_jobs.sql:5-25 | Over any run the leases of one song's attempts, each with its renewals and cut short by its own finishing request, are disjoint and in the order of the attempts |
| QueueRuns.LapsedLeaseIsNeverRevived | db/queries/song_jobs.sql:48-55 | A lapsed lease is never extended again and its attempt is never under lease again |
| QueueRuns.TransitionsDescend | db/queries/song_jobs.sql:5-98 | Every change of a row beyond a renewed lease lowers its measure, nothing raises it, and only a claim raises the attempt count |
| QueueRuns.JobsTerminate | internal/worker/job_transitions.go:11-110 | In any run a job sees as many claims as its attempt count says, at most three, and at most six transitions |
| QueueRuns.RunsTerminate | db/queries/song_jobs.sql:5-98 | n jobs see at most 6n effective events between them |
| Schedule.ClaimsTakeTheFirst | db/queries/song_jobs.sql:6-15 | Every claim of a run takes a due row, and the first one in the order of the columns |
| Schedule.RetriesWait | internal/worker/job_transitions.go:92-101 | Over any run, a job whose attempt n below three failed is not claimed again for 15 n seconds |
| Schedule.RetriesQueueBehind | db/queries/song_jobs.sql:12 | Over any run, a retried job is not claimed ahead of a due job that became available before the retried job did again |
| Schedule.StartedAtTheFirstClaim | db/queries/song_jobs.sql:20 | In every state after a job's first claim started_at is the moment of that claim |
| Fairness.BoundedOvertaking | db/queries/song_jobs.sql:6-15 | While a job that has been due stays unclaimed, the claims of others are bounded by the attempts left to the jobs ahead of it in claim order, plus three for each upload whose transaction began earlier but committed later |
| Fairness.LaterUploadsAreNotLate | db/migrations/00002_song_jobs.sql:2-16 | No such late commit exists if every upload's transaction begins after the job became available |
| Fairness.BlockedInstants | db/queries/song_jobs.sql:5-25 | The time counted as blocked is exactly the instants at which neither claim nor fail-expired accepts a live job |
| Fairness.BoundedUnavailability | internal/worker/job_transitions.go:92-110 | If renewals take effect only within the attempt timeout of the claim, a job is blocked for at most 3 (timeout + 10 min) + 45 s over its whole life |
| JobTable.Table.EnqueueUpload | internal/server/song_upload_persist.go:35-56 | Both rows are inserted, or neither if the id is taken |
| JobTable.Table.Candidate | db/queries/song_jobs.sql:6-15 | The scan finds the first claimable row in (available_at, created_at, song_id) order, or none if there is none |
| JobTable.Table.Claim | internal/worker/job_transitions.go:67-76 | The first due row by available_at, created_at and id starts its next attempt under ten minutes' lease and that attempt goes to the caller; no row means that none was due |
| JobTable.Table.Complete | internal/worker/job_transitions.go:78-85 | The row turns SUCCEEDED and the song READY with its five paths exactly if the row is RUNNING under the attempt; otherwise it reports no row and changes nothing |
| JobTable.Table.Renew | internal/worker/job_transitions.go:87-90 | The row is found exactly if it is RUNNING under the attempt and its lease ends after now, and then the lease ends ten minutes from now |
| JobTable.Table.Fail | internal/worker/job_transitions.go:92-110 | Attempt n below three puts the job back in the queue for 15 n seconds, the third fails job and song, an attempt that no longer holds the row changes nothing; and whether it was final |
| JobTable.Table.FailExpired | internal/worker/job_transitions.go:23-28 | The sweep fails exactly the exhausted jobs whose leases have lapsed, with their songs, and returns exactly their inputs |
| JobTable.JobReferences | internal/worker/job_transitions.go:41-53 | The loop sorts inputs into needed and finished ones and collects the attempts under unlapsed leases |
| JobTable.OutputReferences | internal/worker/job_transitions.go:54-63 | The loop collects every non-NULL path column of every song |
| Holders.HoldKept | internal/worker/worker.go:147-231 | Every step keeps fencing: at most one worker holds an attempt, none holds one whose finishing request is in flight or whose song it has made READY |
| Outputs.OutKept | internal/media/cleanup.go:97-140 | Every timely step keeps the outputs of READY songs, of completing workers and of complete requests in flight, whole and unthreatened by any cleanup |
| Outputs.ReferencedIsReady | internal/worker/job_transitions.go:54-63 | The outputs query protects exactly the directories of READY songs' final attempts |
| Inputs.InKept | internal/media/cleanup.go:66-95 | Every timely step keeps the inputs of live jobs and of commits in flight, against uploads, workers, terminal-input removal and orphan cleanup |
| Guarantees.RunsProject | internal/worker/worker.go:106-192 | Every run of the system is a run of the queue, so all run properties of the queue hold of it |
| Guarantees.ReadyAudioIsNeverLost | internal/worker/worker.go:180-191 | From the moment a song is READY, its row names the five files of its job's final attempt and all five exist, non-empty, in every later state |
| Guarantees.PublicationIsWhole | internal/media/attempt.go:58-92 | In any run at all, what the final rename publishes out of a work directory at most an hour old has all five files, non-empty, in a directory that was not there before |
| Delays.PublicationAgeIsExact | internal/media/attempt.go:58-92 | Every run publishes whole directories up to a given age if and only if that age is at most an hour; one microsecond later a run renames an empty one |
| Guarantees.OutputNeverAlreadyExists | internal/media/attempt.go:76-80 | The "output already exists" error cannot occur in any run |
| Guarantees.LiveInputIsNeverDeleted | internal/media/cleanup.go:66-95 | In every state of a timely run each QUEUED or RUNNING job's input exists and no cleanup has picked it |
| Guarantees.ActiveAttemptIsSpared | internal/media/cleanup.go:122-125 | A pass that finds an attempt under an unlapsed lease at its snapshot never picks that attempt's work or output directory |
| Guarantees.DiscardNeverHitsLiveOutput | internal/worker/worker.go:157-188 | A directory that a worker discards is never, before or after, one that a song's row refers to, lost replies included |
| Guarantees.AbandonedNeverCompletes | internal/worker/worker.go:162-175 | After a recorded renewal failure, a shutdown or a missed deadline nobody issues complete for that attempt, and its output never becomes the song's |
| Guarantees.OneFinishingRequest | internal/worker/worker.go:162-188 | At most one complete, retry or fail request is ever issued for an attempt |
| Delays.AudioDelaysAreExact | internal/media/cleanup.go:53-62 | READY audio is safe in every timely run if and only if the publish delay and the time from listing the outputs to the cutoff (the smaller of the two query bounds, as the jobs are listed first) add up to at most an hour, and the attempt timeout is at most an hour |
| Delays.ReadyAudioIsLost | internal/media/cleanup.go:123-136 | Beyond that, a run in which a cleanup removes the directory of a song that has just become READY |
| Delays.TornOutputIsPublished | internal/worker/worker.go:153-175 | With an attempt timeout over an hour, a run in which a stalled worker publishes a directory that a cleanup has emptied, is still within its deadline, and makes the song READY |
| Delays.InputDelaysAreExact | internal/media/cleanup.go:53-56 | Live inputs are safe in every timely run if and only if the staging and jobs-query delays add up to at most an hour, and an upload never pauses for over an hour between two writes |
| Delays.LiveInputIsLost | internal/media/cleanup.go:79-91 | Beyond that, a run that removes the input of a QUEUED job |
| Delays.ResumedUploadIsLost | internal/media/cleanup.go:82-91 | With longer pauses, a run in which an upload writes on after cleanup has found its file old, commits, and loses its input |
| Runner.RenewalsMoveTheLease | internal/worker/worker.go:194-214 | Renewals change the end of their own attempt's lease and nothing else |
| Runner.UnbrokenLease | internal/worker/worker.go:194-214 | If every renewal was answered and none failed, each came within ten minutes of the one before, the first within the lease, and the last one set its end |
| Runner.RenewalsInTimeSucceed | internal/worker/worker.go:194-214 | Conversely, if the attempt holds the row and each renewal comes before the lease that the last one set is over, all of them find the row and the lease ends ten minutes after the last |
| Runner.ErrorsAreRecorded | internal/worker/worker.go:203-211 | The attempt counts as lost exactly if the first renewal that comes too late or gets no reply finds the attempt's context still running |
| Runner.Worker.RenewLease | internal/worker/worker.go:194-214 | The loop stops at the first error and records it unless the context has ended |
| Runner.Worker.RecordFailure | internal/worker/worker.go:216-231 | The input is removed only when the failure is known to be the job's last; the song does not become READY |
| Runner.Worker.Complete | internal/worker/worker.go:180-191 | On success the input goes and the song is READY; on no row the output goes; on a lost reply neither |
| Runner.Worker.Conclude | internal/worker/worker.go:159-191 | What becomes of the row, the input and the output, on the schema's columns: after a failed renewal or a shutdown the row stays as it is; after a missed deadline or an error the job is QUEUED below three attempts and FAILED at three; otherwise it SUCCEEDED |
| Runner.Worker.Process | internal/worker/worker.go:147-192 | The same after any renewals, with exactly which input and output go; only this song's row, input and directory are touched, READY implies a published, unabandoned attempt whose output is there, and an unreferenced output stays behind only after a lost reply |
| Runner.Worker.Expire | internal/worker/worker.go:107-115 | Exactly the inputs of the exhausted jobs go, once the reply has named them; every live job's input and every READY song stay |
| Runner.Worker.ProcessOne | internal/worker/worker.go:106-141 | A pass processes a job exactly if both replies come and a row is due, and then the first due one; from any sound state to a sound state: tables consistent, live inputs kept, READY outputs there; success means that a song became READY |
| Publish.AttemptFiles.MoveAll | internal/media/attempt.go:65-72 | The renames go clip, drums, bass, other, vocals, and stop at the first failure with every file in exactly one place |
| Publish.AttemptFiles.Publish | internal/media/attempt.go:58-92 | Cut short anywhere, the final directory is unchanged or holds the five files, the four stems regular and not empty, and from an empty result directory no file is lost or copied; when nothing fails it succeeds exactly if the stems are audio, the clip and result directory are there and the output is not |
| Publish.AttemptFiles.Produce | internal/worker/audio.go:40-63 | Success exactly when FFmpeg and Demucs succeed, clip and stems are non-empty files and no output exists |
| Publish.AttemptFiles.Process | internal/worker/audio.go:26-63 | The final directory appears as five regular files that are not empty, or not at all, however far the attempt gets; when nothing is cut short, exactly if the input is there, both tools succeed, clip and stems are regular and not empty, and no output exists |
| Upload.ProbeDuration | internal/server/song_upload.go:144-192 | A duration exactly for reports with a positive duration, an mp3 format and an mp3 audio stream |
| Upload.Uploads.Receive | internal/server/song_upload.go:49-134 | A staged file is handed over exactly for acceptable uploads: one file of 1 byte to 30 MiB; title, artist, genre and clip start once each; texts valid, without NUL, of 1 to 255 or 50 runes; twelve seconds from the clip start; a duration that fits 32 bits, handed on rounded. Otherwise the incoming directory is as before, if removal works, and the status says whether it was too large or an internal failure |
| Upload.Uploads.Persist | internal/server/song_upload_persist.go:17-66 | The rows are those of an enqueue exactly if the commit was applied; the file goes exactly when the transaction is known not to have committed |
| Upload.Uploads.Upload | internal/server/songs.go:113-124 | The rows are those of an enqueue exactly if the upload was acceptable and its commit applied, and success means that the commit was confirmed; a job implies its whole file; a known failure leaves no rows and no file; a file without a job remains only after an unknown commit that was not applied |
| Upload.OrphanIsCollected | internal/media/cleanup.go:66-95 | Such a file outlives a pass exactly while it is no older than the cleanup interval |
| Refinement.ConcludeIsARun | internal/worker/worker.go:159-191 | Whatever Conclude makes of row, input and output, with replies heard or lost, enabled steps of the state machine make too |
| Refinement.RenewalIsARun | internal/worker/worker.go:194-214 | So with one renewal, answered or lost |
| Refinement.ProcessCanFail | internal/worker/worker.go:157-175 | The state machine lets an attempt fail at any point, deadline passed or not, shut down or not |
| Refinement.ExpireIsARun | internal/worker/worker.go:107-115 | So with failing the exhausted jobs and removing their inputs |
| Refinement.UploadIsARun | internal/server/song_upload_persist.go:17-66 | So with the file and the rows of every upload, refused, failed, committed or in doubt |
| Refinement.PassBegins | internal/worker/cleanup.go:7-14 | So with a cleanup's snapshot and its removal of the finished jobs' inputs |
| Refinement.PassRemoves | internal/media/cleanup.go:66-140 | So with its removal of any one file or directory that it may pick |
| Names.AttemptNameRoundTrips | internal/media/cleanup.go:115-121 | Parsing a printed attempt name gives back every int32 number, and rejects every larger one |
| Names.RecognisedNames | internal/media/cleanup.go:115-121 | Of all names parsed as attempt n, the printed one is the one with plain digits |
| Names.AliasesAreRecognised | internal/media/cleanup.go:118-121 | Names with a plus sign or a leading zero are taken for the attempt too; a minus sign is accepted before zero only |
| Names.RecognisedExactly | internal/media/cleanup.go:115-121 | The names taken for attempt n are exactly attempt-, a sign that ParseInt accepts, any zeros and the digits of n, for n within 32 bits |
| Names.PathsAreDistinct | internal/media/attempt.go:35-46 | Distinct (song, attempt) pairs have distinct directories |
| Names.InputFilesAreRecognised | internal/media/store.go:31-44 | Cleanup recognises every staged input, and distinct random parts give distinct names |
| Names.InputFilesExactly | internal/media/cleanup.go:75-77 | The names taken for staged inputs are exactly those that begin with song- and end with .mp3 |
| MediaCleanup.Area.CleanSong | internal/media/cleanup.go:111-137 | The inner loop removes only orphans of its song, all of them unless cancelled |
| MediaCleanup.Area.Clean | internal/media/cleanup.go:97-140 | What is left is the old area without the removed entries, each of them an orphan; without an interruption, every orphan is gone |
| MediaCleanup.MediaStore.CleanIncoming | internal/media/cleanup.go:66-95 | Likewise for orphaned inputs |
| MediaCleanup.MediaStore.Cleanup | internal/media/cleanup.go:27-64 | A pass that is cut short anywhere has removed only orphans, changed nothing else, and touched no area before the one before it was done |
| MediaCleanup.MediaStore.RemoveTerminal | internal/worker/cleanup.go:12-14 | Exactly the inputs of finished jobs are removed |
| MediaCleanup.CleanupMedia | internal/worker/cleanup.go:7-24 | Finished jobs' inputs go first, then the sweep, each by its own clock reading |
| MediaCleanup.RemovedInputsExactly | internal/media/cleanup.go:66-95 | A pass removes from the incoming directory exactly the finished jobs' inputs and the regular song-*.mp3 files over an hour old that no QUEUED or RUNNING job names |
| MediaCleanup.OrphansExactly | internal/media/cleanup.go:111-132 | An entry is an orphan exactly if it is an old directory, not referenced, whose name stands for an attempt other than the song's active one |
| MediaCleanup.RemovedAttemptsExactly | internal/worker/cleanup.go:7-24 | A pass removes exactly the attempt directories over an hour old whose attempt is not RUNNING under an unlapsed lease, in the songs area only those that no path column of any song names; the rest is as before |
| MediaCleanup.SweepGuardsAgree | internal/media/cleanup.go:66-140 | On the names the system uses, the loops pick exactly what the state machine lets a cleanup pick |
| MediaCleanup.QuiescentCleanup | internal/worker/cleanup.go:7-24 | With no live lease and every file old, one pass leaves among recognised names exactly the inputs of live jobs, exactly the outputs of READY songs and no work directory |
| MediaCleanup.SecondPassRemovesNothing | internal/worker/cleanup.go:7-24 | A second pass, whenever it comes, changes nothing |
| MediaCleanup.RunsAreSound | internal/worker/cleanup.go:7-24 | Every state of every timely run meets the conditions of the two lemmas above on tables and files |
| MediaCleanup.SharedInputIsRemoved | internal/worker/cleanup.go:8-14 | A pass spares a live job's input exactly when no finished job names the same file |
| RateLimit.SweepIsInvisible | internal/server/ratelimit.go:33-57 | Every answer is that of a limiter that never forgets, if a bucket refills, lag included, within the idle time |
| RateLimit.InvisibilityIsExact | internal/server/ratelimit.go:40-47 | Over all runs the sweep is invisible if and only if nothing can be refilled, or burst times interval plus the lag between the two clock readings is at most ten minutes and one tick |
| RateLimit.ConfiguredLimitersAreExact | internal/server/server.go:22-23 | For the login and the register limiter both conditions hold exactly up to lags of nine and seven minutes and one tick |
| RateLimit.AdmissionIsBounded | internal/server/ratelimit.go:33-57 | In any window an address gets at most burst + floor(length / interval) requests through, whatever sweeps there are, as long as the sweep is invisible |
| RateLimit.AdmissionIsExact | internal/server/ratelimit.go:40-56 | For every interval above zero the bound holds in all runs and windows if and only if the burst is zero, or burst times interval plus the lag is at most ten minutes and one tick |
| RateLimit.AdmissionIsDetermined | internal/server/ratelimit.go:49-56 | A limiter that never forgets lets a request through exactly if, in every window that ends with it, one more keeps to burst + floor(length / interval) |
| RateLimit.AnswersAreDetermined | internal/server/ratelimit.go:33-57 | So does the limiter that sweeps, as long as its sweep is invisible |
| RateLimit.NoIntervalNoLimit | internal/server/ratelimit.go:56 | With no time between tokens every request gets through |
| RateLimit.SpendingIsBounded | internal/server/ratelimit.go:49-56 | Without eviction, what an address spent in a window and could still spend never exceed a full bucket plus the window's refill |
| RateLimit.MemoryIsBounded | internal/server/ratelimit.go:40-53 | With clock readings in order, after every request each visitor still held was seen within the last eleven minutes |
| RateLimit.RecentVisitorsAreKept | internal/server/ratelimit.go:40-53 | A visitor seen within the last ten minutes is always still held |
| RateLimit.SweepsAreSpaced | internal/server/ratelimit.go:40-47 | Two sweeps are more than a minute apart |
| IpLimiter.Visitor.Take | internal/server/ratelimit.go:56 | The bucket spends a token if a whole one is there and is untouched otherwise |
| IpLimiter.Limiter.Evict | internal/server/ratelimit.go:41-45 | The deleting loop leaves exactly the visitors seen within ten minutes |
| IpLimiter.Limiter.Sweep | internal/server/ratelimit.go:40-47 | The table after a due sweep, and an untouched table otherwise |
| IpLimiter.Limiter.Allow | internal/server/ratelimit.go:33-57 | Table, schedule and answer are those of the function that the laws above, admission in both directions among them, are proved of; no visitor is shared between addresses |

## Left out

- HTTP handlers, JSON, routing, cookies, authentication, sessions, logging and metrics.
- FFmpeg, ffprobe and Demucs: each is an input that says what it left behind; the command lines are not modelled.
- `Runner.Run`: the poll loop, its tickers and its hourly schedule; any number of passes may start at any time.
- Path strings, symbolic links, `os.Root` and the containment checks of the store: paths are structured values. Only the
  names of attempt directories and staged inputs are strings. `InputPath` and `OpenAudio` only read.
- PostgreSQL internals: locks, isolation levels, and rows removed by the cascade from `songs`; nothing in the code deletes.
- The columns `clip_start_seconds`, `updated_at`, title, artist, genre and duration in the tables.
- The battles, rounds and guesses tables, which no code uses yet.
- The limiter's races: its critical section and the bucket's own are one step, with two clock readings. Tokens are exact
  times rather than floating-point numbers, and the split of host and port is not modelled.
- `rate.Limiter`, `strconv.ParseInt` and `filepath.Ext` are modelled from their documentation; their sources are not part of
  this model.
- The durations in the upload's checks are real numbers, not floating-point ones. Submitted texts come trimmed and marked as
  valid UTF-8 or not, and clip starts as the finite numbers they parse to.
- Cleanup's lists of what it removed are sets: the order in which it visits entries is arbitrary. In the state machine a pass
  visits the three areas in any order and may skip entries, which allows more runs than the code has.
- A cleanup pass that fails to remove a file, or whose context ends, is one that stops early.
- Publish.AttemptFiles.Publish: no other process touches the attempt's directories while it runs; the state machine covers that.
- Upload.Uploads.Upload: an unknown commit is applied at once or never; the state machine also lets it be applied later.
- Runner.Worker.ProcessOne: other workers do not move in between; the state machine covers that.
- Refinement.ConcludeIsARun: it and its neighbours each cover one stretch of code at one clock reading; the clock's own step
  comes between them.
- MediaCleanup.CleanupMedia: both queries see the same rows; the state machine lets the tables change between them.
