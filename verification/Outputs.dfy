/** READY songs never lose their audio. */
module Outputs {
  import opened Prelude
  import opened SongJobs
  import opened Snapshots
  import opened Protocol
  import opened Holders
  import opened Cleaners

  // ----- The invariant -----

  ghost predicate DirsHanded(s: State, a: Attempt) {
    a in s.work || a in s.songs ==> Handed(s.db, a)
  }

  ghost predicate TargetHanded(s: State, c: nat) {
    c in s.cleaners && s.cleaners[c].pending.Some? ==>
      match s.cleaners[c].pending.value
      case Input(_) => true
      case Work(a) => Handed(s.db, a)
      case Output(a) => Handed(s.db, a)
  }

  /** An attempt that has not published has no output directory, and before PrepareAttempt no work directory either. */
  ghost predicate Unpublished(s: State, w: nat) {
    var me := WorkerOf(s, w);
    && (me.Holding? && (InProcess(me.stage) || me.stage == Returned(None)) ==>
        me.job !in s.songs && Unthreatened(s, Output(me.job)))
    && (me.Holding? && me.stage.Fresh? ==> me.job !in s.work && Unthreatened(s, Work(me.job)))
  }

  /** The output whose last file was moved in at `filled` is intact, at least until it is one cleanup interval old. */
  ghost predicate Safe(s: State, a: Attempt, filled: Time) {
    s.now <= filled + CLEANUP_INTERVAL ==>
      && a in s.songs && Whole(s.songs[a].files) && s.songs[a].mtime == filled
      && Unthreatened(s, Output(a))
  }

  /** The worker's output is in place and waits for the complete request. */
  predicate Filled(me: Worker, filled: Time) {
    me.Holding? && (me.stage == Returned(Some(filled)) || me.stage == Completing(filled))
  }

  /** A worker that goes on to complete was in time; one that has yet to check its deadline may have published too
      late. */
  ghost predicate HolderSafe(s: State, w: nat, filled: Time) {
    var me := WorkerOf(s, w);
    Filled(me, filled) && (me.stage.Completing? || s.now <= me.prepared + CLEANUP_INTERVAL) ==> Safe(s, me.job, filled)
  }

  ghost predicate RequestSafe(s: State, r: Request) {
    r in s.inFlight && r.CompleteRequest? ==> Safe(s, r.attempt, r.filled)
  }

  /** A cleanup that has listed the outputs either saw the READY song or listed them too soon to count the directory as
      old. */
  ghost predicate Remembers(b: Bounds, s: State, c: nat, a: Attempt) {
    c in s.cleaners && !s.cleaners[c].phase.ListedJobs? && a in s.songs ==>
      a in s.cleaners[c].referenced || s.cleaners[c].outputsAt <= s.songs[a].mtime + b.publish
  }

  ghost predicate AudioKept(b: Bounds, s: State, a: Attempt) {
    ReadyBy(s.db, a) ==>
      && a in s.songs && Whole(s.songs[a].files) && Unthreatened(s, Output(a))
      && forall c :: Remembers(b, s, c, a)
  }

  ghost predicate WorkOk(s: State, a: Attempt) {
    a in s.work ==>
      && s.work[a].prepared <= s.work[a].mtime <= s.now
      && (s.work[a].torn ==> s.work[a].prepared + CLEANUP_INTERVAL < s.now)
  }

  /** A cleanup can only be removing a work directory that is older than one interval. */
  ghost predicate WorkTargetOk(s: State, c: nat, a: Attempt) {
    c in s.cleaners && s.cleaners[c].pending == Some(Work(a)) && a in s.work ==>
        s.work[a].prepared + CLEANUP_INTERVAL < s.now
  }

  /** Whose work directory it is, and where Publish stands as long as no cleanup has torn it. */
  ghost predicate PublishOk(s: State, w: nat) {
    var me := WorkerOf(s, w);
    me.Holding? && me.job in s.work ==>
      var d := s.work[me.job];
      && (me.stage.Working? || me.stage.Publishing? ==> d.prepared == me.prepared)
      && (!d.torn && me.stage == Working(true) ==> HasAudio(d.sources, Full))
      && (!d.torn && me.stage.Publishing? ==> forall f: AudioFile :: Arrived(d, me.stage.moved, f))
  }

  predicate Arrived(d: WorkDir, moved: nat, f: AudioFile) {
    HasAudio(if Place(f) < moved then d.result else d.sources, f)
  }

  /** The part that needs no timing. */
  ghost predicate Tidy(s: State) {
    && (forall a :: DirsHanded(s, a))
    && (forall c :: TargetHanded(s, c))
    && (forall w :: Unpublished(s, w))
    && (forall c :: PassOk(s, c))
    && (forall a :: WorkOk(s, a))
    && (forall c, a :: WorkTargetOk(s, c, a))
    && (forall w :: PublishOk(s, w))
  }

  ghost predicate Out(b: Bounds, s: State) {
    && Tidy(s)
    && (forall w, filled :: HolderSafe(s, w, filled))
    && (forall r :: RequestSafe(s, r))
    && (forall a :: AudioKept(b, s, a))
    && (forall c :: CleanerOk(b, s, c))
  }

  // ----- What one step does to the directories and to the cleanups -----

  predicate HeldBy(s: State, step: Step, a: Attempt) {
    step.ByWorker? && WorkerOf(s, step.w).Holding? && WorkerOf(s, step.w).job == a
  }

  /** An output directory changes only by its holder's publish or discard, or by a cleanup that had picked it. */
  ghost predicate OutputMoves(s: State, step: Step, next: State, a: Attempt) {
    || ((a in next.songs <==> a in s.songs) && (a in s.songs ==> next.songs[a] == s.songs[a]))
    || (HeldBy(s, step, a) && (step.wk.PublishFinal? || step.wk.Discard?))
    || (Removes(s, step, Output(a)) && a in s.songs)
  }

  lemma StepOutputs(s: State, step: Step, a: Attempt)
    requires Can(s, step)
    ensures OutputMoves(s, step, Local(s, step), a)
  {
  }

  /** A work directory changes only by its holder, or by a cleanup that had picked it, which leaves it torn. */
  ghost predicate WorkMoves(s: State, step: Step, next: State, a: Attempt) {
    || ((a in next.work <==> a in s.work) && (a in s.work ==> next.work[a] == s.work[a]))
    || HeldBy(s, step, a)
    || (Removes(s, step, Work(a)) && a in s.work
        && (a in next.work ==>
              next.work[a].torn && next.work[a].prepared == s.work[a].prepared && next.work[a].mtime == s.now))
  }

  lemma StepWork(s: State, step: Step, a: Attempt)
    requires Can(s, step)
    ensures WorkMoves(s, step, Local(s, step), a)
  {
  }

  ghost predicate FileSteps(s: State, step: Step, next: State)
    requires Can(s, step)
  {
    && Steps(s, step, next)
    && (forall a :: OutputMoves(s, step, next, a))
    && (forall a :: WorkMoves(s, step, next, a))
    && (forall c :: CleanerMoves(s, step, next, c))
    && (step.ByWorker? ==>
          && WorkerOf(next, step.w) == WorkerAfter(s, step.w, step.wk)
          && next.work == WorkAfter(s, step.w, step.wk) && next.songs == SongsAfter(s, step.w, step.wk))
    && (next.now == s.now || step.Tick?)
  }

  lemma StepFileSteps(s: State, step: Step)
    requires Can(s, step) && Hold(s)
    ensures FileSteps(s, step, Do(s, step))
  {
    StepSteps(s, step);
    var local, next := Local(s, step), Do(s, step);
    forall a
      ensures OutputMoves(s, step, next, a) && WorkMoves(s, step, next, a)
    {
      StepOutputs(s, step, a);
      StepWork(s, step, a);
    }
    forall c
      ensures CleanerMoves(s, step, next, c)
    {
      StepCleaners(s, step, c);
    }
  }

  // ----- Preservation -----

  lemma DirsHandedKept(s: State, step: Step, next: State, a: Attempt)
    requires Can(s, step) && FileSteps(s, step, next) && Tidy(s)
    ensures DirsHanded(next, a)
  {
    assert DirsHanded(s, a) && OutputMoves(s, step, next, a) && WorkMoves(s, step, next, a);
    if step.ByWorker? {
      assert HolderOk(s, step.w);
    }
  }

  lemma TargetHandedKept(s: State, step: Step, next: State, c: nat)
    requires Can(s, step) && FileSteps(s, step, next) && Tidy(s)
    ensures TargetHanded(next, c)
  {
    assert TargetHanded(s, c) && CleanerMoves(s, step, next, c);
    if step.ByCleaner? && step.cl.Inspect? {
      match step.cl.target
      case Input(_) =>
      case Work(a) => assert DirsHanded(s, a);
      case Output(a) => assert DirsHanded(s, a);
    }
  }

  lemma WorkKept(s: State, step: Step, next: State, a: Attempt)
    requires Can(s, step) && FileSteps(s, step, next) && Tidy(s)
    ensures WorkOk(next, a)
  {
    assert WorkOk(s, a) && WorkMoves(s, step, next, a);
    if step.ByWorker? {
      WorkerWorkOk(s, step.w, step.wk, a);
    } else if step.ByCleaner? {
      assert WorkTargetOk(s, step.c, a);
    }
  }

  lemma WorkerWorkOk(s: State, w: nat, wk: WorkerAction, a: Attempt)
    requires CanWorker(s, w, wk) && WorkOk(s, a)
    ensures WorkOk(s.(work := WorkAfter(s, w, wk)), a)
  {
  }

  lemma WorkTargetKept(s: State, step: Step, next: State, c: nat, a: Attempt)
    requires Can(s, step) && FileSteps(s, step, next) && Tidy(s)
    ensures WorkTargetOk(next, c, a)
  {
    assert WorkTargetOk(s, c, a) && WorkMoves(s, step, next, a) && CleanerMoves(s, step, next, c);
    assert WorkOk(s, a) && PassOk(s, c);
    if step.ByWorker? {
      assert Unpublished(s, step.w);
      assert NotPending(s, c, Work(a)) || s.cleaners[c].pending == Some(Work(a));
    }
  }

  lemma PublishKept(s: State, step: Step, next: State, w: nat)
    requires Can(s, step) && FileSteps(s, step, next) && Tidy(s)
    ensures PublishOk(next, w)
  {
    assert PublishOk(s, w) && Moves(s, step, next, w) && Unpublished(s, w);
    if step.ByWorker? && step.w == w {
      if step.wk.ClaimJob? {
        NewAttemptIsClean(s, WorkerOf(next, w).job);
      }
      PublisherMoves(s, w, step.wk, next);
    } else if WorkerOf(next, w).Holding? {
      assert WorkMoves(s, step, next, WorkerOf(next, w).job);
      if step.ByWorker? {
        assert HoldersDiffer(s, step.w, w);
      }
    }
  }

  lemma PublisherMoves(s: State, w: nat, a: WorkerAction, next: State)
    requires CanWorker(s, w, a) && PublishOk(s, w) && Unpublished(s, w)
    requires a.ClaimJob? ==> WorkerAfter(s, w, a).job !in s.work
    requires WorkerOf(next, w) == WorkerAfter(s, w, a) && next.work == WorkAfter(s, w, a)
    ensures PublishOk(next, w)
  {
    var before, after := WorkerOf(s, w), WorkerOf(next, w);
    if before.Holding? && before.job in s.work && after.Holding? && after.stage.Publishing? && after.job in next.work {
      var d := s.work[before.job];
      forall f: AudioFile | !d.torn
        ensures Arrived(next.work[after.job], after.stage.moved, f)
      {
        if before.stage.Publishing? {
          assert Arrived(d, before.stage.moved, f);
        } else {
          assert f.Full? || HasAudio(d.sources, f);
        }
      }
    }
  }

  predicate Publishable(me: Worker) {
    me.Holding? && (InProcess(me.stage) || me.stage == Returned(None))
  }

  lemma UnpublishedKept(s: State, step: Step, next: State, w: nat)
    requires Can(s, step) && FileSteps(s, step, next) && Tidy(s)
    ensures Unpublished(next, w)
  {
    assert Unpublished(s, w) && Moves(s, step, next, w);
    var after := WorkerOf(next, w);
    if Publishable(after) {
      if step.ByWorker? && step.w == w {
        PublishableMoves(s, w, step.wk);
      } else if step.ByWorker? {
        assert HoldersDiffer(s, step.w, w);
      }
      if WorkerOf(s, w).Free? {
        NewAttemptIsClean(s, after.job);
      }
      assert OutputMoves(s, step, next, after.job) && WorkMoves(s, step, next, after.job);
      UnpublishedIn(s, step, next, after);
    }
  }

  lemma PublishableMoves(s: State, w: nat, a: WorkerAction)
    requires CanWorker(s, w, a) && Publishable(WorkerAfter(s, w, a))
    ensures Publishable(WorkerOf(s, w)) || a.ClaimJob?
    ensures SongsAfter(s, w, a) == s.songs
    ensures WorkerAfter(s, w, a).stage.Fresh? ==>
      WorkAfter(s, w, a) == s.work && (a.ClaimJob? || WorkerOf(s, w).stage.Fresh?)
  {
  }

  lemma UnpublishedIn(s: State, step: Step, next: State, after: Worker)
    requires Can(s, step) && FileSteps(s, step, next) && Publishable(after)
    requires after.job !in s.songs && after.job !in next.songs && Unthreatened(s, Output(after.job))
    requires after.stage.Fresh? ==> after.job !in s.work && after.job !in next.work && Unthreatened(s, Work(after.job))
    ensures after.job !in next.songs && Unthreatened(next, Output(after.job))
    ensures after.stage.Fresh? ==> after.job !in next.work && Unthreatened(next, Work(after.job))
  {
    UnthreatenedKept(s, step, next, Output(after.job));
    if after.stage.Fresh? {
      UnthreatenedKept(s, step, next, Work(after.job));
    }
  }

  /** Nothing on disk and no cleanup knows an attempt that has not been handed out. */
  lemma NewAttemptIsClean(s: State, a: Attempt)
    requires Tidy(s) && !Handed(s.db, a)
    ensures a !in s.work && a !in s.songs && Unthreatened(s, Work(a)) && Unthreatened(s, Output(a))
  {
    assert DirsHanded(s, a);
    forall c
      ensures NotPending(s, c, Work(a)) && NotPending(s, c, Output(a))
    {
      assert TargetHanded(s, c);
    }
  }

  /** A safe output stays safe unless the step is its own holder's publish or discard. */
  lemma SafeKept(b: Bounds, s: State, step: Step, next: State, a: Attempt, filled: Time)
    requires Can(s, step) && FileSteps(s, step, next) && Out(b, s)
    requires Safe(s, a, filled) && !(HeldBy(s, step, a) && (step.wk.PublishFinal? || step.wk.Discard?))
    ensures Safe(next, a, filled)
  {
    if next.now <= filled + CLEANUP_INTERVAL {
      assert OutputMoves(s, step, next, a);
      if step.ByCleaner? {
        assert NotPending(s, step.c, Output(a)) && CleanerOk(b, s, step.c);
      }
      UnthreatenedKept(s, step, next, Output(a));
    }
  }

  lemma HolderSafeKept(b: Bounds, s: State, step: Step, next: State, w: nat, filled: Time)
    requires Can(s, step) && FileSteps(s, step, next) && Out(b, s) && Timely(b, s, step) && KeepsAudio(b)
    ensures HolderSafe(next, w, filled)
  {
    assert HolderSafe(s, w, filled) && Moves(s, step, next, w);
    var after := WorkerOf(next, w);
    if Filled(after, filled) && (after.stage.Completing? || next.now <= after.prepared + CLEANUP_INTERVAL) {
      if step.ByWorker? && step.w == w && step.wk.PublishFinal? {
        assert PublishOk(s, w);
        PublishIsSafe(s, step, next);
      } else {
        if step.ByWorker? && step.w == w {
          FilledMoves(s, w, step.wk, filled);
        } else if step.ByWorker? {
          assert HoldersDiffer(s, step.w, w);
        }
        SafeKept(b, s, step, next, WorkerOf(s, w).job, filled);
      }
    }
  }

  lemma FilledMoves(s: State, w: nat, a: WorkerAction, filled: Time)
    requires CanWorker(s, w, a) && !a.PublishFinal? && Filled(WorkerAfter(s, w, a), filled)
    ensures Filled(WorkerOf(s, w), filled) && !a.Discard? && WorkerAfter(s, w, a).prepared == WorkerOf(s, w).prepared
    ensures WorkerAfter(s, w, a).stage.Completing? && !WorkerOf(s, w).stage.Completing? ==> a.Decide?
  {
  }

  /** The final rename out of a work directory at most one interval old publishes all five files, whole and
      unthreatened. */
  lemma PublishIsSafe(s: State, step: Step, next: State)
    requires Can(s, step) && FileSteps(s, step, next) && Tidy(s)
    requires step.ByWorker? && step.wk.PublishFinal?
      && s.now <= s.work[WorkerOf(s, step.w).job].prepared + CLEANUP_INTERVAL
    ensures var a := WorkerOf(s, step.w).job;
      && a !in s.songs && a in next.songs && Whole(next.songs[a].files)
      && next.songs[a].mtime == s.work[a].resultMtime && Unthreatened(next, Output(a))
  {
    var a := WorkerOf(s, step.w).job;
    assert PublishOk(s, step.w) && Unpublished(s, step.w) && WorkOk(s, a);
    forall f: AudioFile
      ensures HasAudio(s.work[a].result, f)
    {
      assert Arrived(s.work[a], FILES, f);
    }
    UnthreatenedKept(s, step, next, Output(a));
  }

  lemma RequestSafeKept(b: Bounds, s: State, step: Step, next: State, r: Request)
    requires Can(s, step) && FileSteps(s, step, next) && Out(b, s)
    ensures RequestSafe(next, r)
  {
    if r in next.inFlight && r.CompleteRequest? {
      assert Sends(s, step, next, r);
      if r in s.inFlight {
        assert RequestSafe(s, r);
        if step.ByWorker? {
          assert RequestUnheld(s, r, step.w);
        }
      } else {
        assert HolderSafe(s, step.w, r.filled);
      }
      SafeKept(b, s, step, next, r.attempt, r.filled);
    }
  }

  // ----- READY songs -----

  /** The outputs query refers to exactly the directories of the attempts that made their songs READY. */
  lemma ReferencedIsReady(db: Db, a: Attempt)
    requires Consistent(db)
    ensures a in Referenced(OutputPaths(db.songs)) <==> ReadyBy(db, a)
  {
    assert RowOk(db, a.song);
    if ReadyBy(db, a) {
      assert AudioPath(a, Full) in PathsOf(db.songs[a.song]);
      assert AudioPath(a, Full) in OutputPaths(db.songs);
    }
    forall path | path in OutputPaths(db.songs)
      ensures ReadyBy(db, path.directory)
    {
      var id :| id in db.songs && path in PathsOf(db.songs[id]);
      PathsComeFromReady(db, id, path);
    }
  }

  lemma PathsComeFromReady(db: Db, id: SongId, path: AudioPath)
    requires Consistent(db) && id in db.songs && path in PathsOf(db.songs[id])
    ensures ReadyBy(db, path.directory)
  {
    assert id in db.jobs && RowOk(db, id);
    assert !HasNoAudio(db.songs[id]);
  }

  lemma RemembersKept(b: Bounds, s: State, step: Step, next: State, c: nat, a: Attempt)
    requires Can(s, step) && FileSteps(s, step, next) && Out(b, s)
    requires ReadyBy(s.db, a) && a in s.songs && a in next.songs && next.songs[a] == s.songs[a] && Remembers(b, s, c, a)
    ensures Remembers(b, next, c, a)
  {
    assert CleanerMoves(s, step, next, c);
    ReferencedIsReady(s.db, a);
  }

  /** A cleanup that forgot a READY song has fixed its cutoff before the song's audio could count as old. */
  lemma ReadyIsNeverPicked(b: Bounds, s: State, c: nat, a: Attempt)
    requires Out(b, s) && ReadyBy(s.db, a) && KeepsAudio(b)
    ensures !CanClean(s, c, Inspect(Output(a)))
  {
    assert AudioKept(b, s, a) && Remembers(b, s, c, a) && CleanerOk(b, s, c);
  }

  lemma AudioStays(b: Bounds, s: State, step: Step, next: State, a: Attempt)
    requires Can(s, step) && FileSteps(s, step, next) && Out(b, s) && KeepsAudio(b)
    requires ReadyBy(s.db, a)
    ensures AudioKept(b, next, a)
  {
    assert AudioKept(b, s, a) && OutputMoves(s, step, next, a);
    if step.ByWorker? {
      assert ReadyUnheld(s, step.w);
    } else if step.ByCleaner? {
      ReadyIsNeverPicked(b, s, step.c, a);
      assert NotPending(s, step.c, Output(a));
    }
    UnthreatenedKept(s, step, next, Output(a));
    forall c
      ensures Remembers(b, next, c, a)
    {
      assert Remembers(b, s, c, a);
      RemembersKept(b, s, step, next, c, a);
    }
  }

  /** The complete request that makes a song READY finds its output safe, and finds it in time. */
  lemma AudioArrives(b: Bounds, s: State, step: Step, next: State, a: Attempt, filled: Time)
    requires Can(s, step) && FileSteps(s, step, next) && Out(b, s)
    requires KeepsAudio(b)
    requires Safe(s, a, filled) && s.now == next.now && s.now <= filled + b.publish
    requires step.Deliver? || (step.ByWorker? && step.wk.SendComplete?)
    ensures AudioKept(b, next, a)
  {
    assert OutputMoves(s, step, next, a);
    UnthreatenedKept(s, step, next, Output(a));
    forall c
      ensures Remembers(b, next, c, a)
    {
      assert CleanerMoves(s, step, next, c) && CleanerOk(b, s, c);
    }
  }

  lemma AudioKeptOn(b: Bounds, s: State, step: Step, next: State, a: Attempt)
    requires Can(s, step) && FileSteps(s, step, next) && Out(b, s) && Timely(b, s, step)
    requires KeepsAudio(b)
    ensures AudioKept(b, next, a)
  {
    assert ReadyFrom(s.db, next.db, Query(s, step), a);
    if ReadyBy(s.db, a) {
      AudioStays(b, s, step, next, a);
    } else if ReadyBy(next.db, a) {
      if step.ByWorker? {
        assert HolderSafe(s, step.w, WorkerOf(s, step.w).stage.filled);
        AudioArrives(b, s, step, next, a, WorkerOf(s, step.w).stage.filled);
      } else {
        assert RequestSafe(s, step.request);
        AudioArrives(b, s, step, next, a, step.request.filled);
      }
    }
  }

  lemma TidyKept(s: State, step: Step)
    requires Can(s, step) && Hold(s) && Tidy(s)
    ensures Tidy(Do(s, step))
  {
    StepFileSteps(s, step);
    TidyKeptIn(s, step, Do(s, step));
  }

  lemma TidyKeptIn(s: State, step: Step, next: State)
    requires Can(s, step) && FileSteps(s, step, next) && Tidy(s)
    ensures Tidy(next)
  {
    forall a {
      DirsHandedKept(s, step, next, a);
    }
    forall c {
      TargetHandedKept(s, step, next, c);
    }
    forall w {
      UnpublishedKept(s, step, next, w);
    }
    forall c
      ensures PassOk(next, c)
    {
      assert PassOk(s, c) && CleanerMoves(s, step, next, c);
    }
    forall a {
      WorkKept(s, step, next, a);
    }
    forall c, a {
      WorkTargetKept(s, step, next, c, a);
    }
    forall w {
      PublishKept(s, step, next, w);
    }
  }

  lemma OutKept(b: Bounds, s: State, step: Step)
    requires Can(s, step) && Hold(s) && Out(b, s) && Timely(b, s, step)
    requires KeepsAudio(b)
    ensures Out(b, Do(s, step))
  {
    StepFileSteps(s, step);
    OutKeptIn(b, s, step, Do(s, step));
  }

  lemma OutKeptIn(b: Bounds, s: State, step: Step, next: State)
    requires Can(s, step) && FileSteps(s, step, next) && Out(b, s) && Timely(b, s, step)
    requires KeepsAudio(b)
    ensures Out(b, next)
  {
    TidyKeptIn(s, step, next);
    forall a {
      AudioKeptOn(b, s, step, next, a);
    }
    forall c
      ensures CleanerOk(b, next, c)
    {
      assert CleanerOk(b, s, c) && CleanerMoves(s, step, next, c);
      CleanerKept(b, s, step, next, c);
    }
    forall w, filled {
      HolderSafeKept(b, s, step, next, w, filled);
    }
    forall r {
      RequestSafeKept(b, s, step, next, r);
    }
  }
}
