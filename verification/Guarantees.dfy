/** What holds in every run of the whole system. */
module Guarantees {
  import opened Prelude
  import opened SongJobs
  import opened Snapshots
  import opened Protocol
  import opened Holders
  import opened Cleaners
  import opened Outputs
  import opened Inputs
  import QueueRuns

  lemma InitialHolds(b: Bounds, s: State)
    requires IsInitial(s)
    ensures Hold(s) && Out(b, s) && In(b, s)
  {
  }

  /** Fencing and directory discipline need no timing assumption. */
  lemma {:induction false} HoldAlways(ss: seq<State>, steps: seq<Step>, i: nat)
    requires IsRun(ss, steps) && i < |ss|
    ensures Hold(ss[i]) && Tidy(ss[i])
  {
    if i == 0 {
      InitialHolds(Bounds(0, 0, 0, 0, 0, 0), ss[0]);
    } else {
      HoldAlways(ss, steps, i - 1);
      assert FollowsAt(ss, steps, i - 1);
      HoldKept(ss[i - 1], steps[i - 1]);
      TidyKept(ss[i - 1], steps[i - 1]);
    }
  }

  lemma {:induction false} OutAlways(b: Bounds, ss: seq<State>, steps: seq<Step>, i: nat)
    requires IsTimelyRun(b, ss, steps) && i < |ss|
    requires KeepsAudio(b)
    ensures Hold(ss[i]) && Out(b, ss[i])
  {
    HoldAlways(ss, steps, i);
    if i == 0 {
      InitialHolds(b, ss[0]);
    } else {
      OutAlways(b, ss, steps, i - 1);
      assert FollowsAt(ss, steps, i - 1) && TimelyAt(b, ss, steps, i - 1);
      OutKept(b, ss[i - 1], steps[i - 1]);
    }
  }

  lemma {:induction false} InAlways(b: Bounds, ss: seq<State>, steps: seq<Step>, i: nat)
    requires IsTimelyRun(b, ss, steps) && i < |ss|
    requires KeepsInputs(b)
    ensures Hold(ss[i]) && In(b, ss[i])
  {
    HoldAlways(ss, steps, i);
    if i == 0 {
      InitialHolds(b, ss[0]);
    } else {
      InAlways(b, ss, steps, i - 1);
      assert FollowsAt(ss, steps, i - 1) && TimelyAt(b, ss, steps, i - 1);
      InKept(b, ss[i - 1], steps[i - 1]);
    }
  }

  // ----- Every run of the system is a run of the queue -----

  ghost function QueueStates(ss: seq<State>): seq<QueueRuns.Queue> {
    seq(|ss|, i requires 0 <= i < |ss| => Abs(ss[i]))
  }

  ghost function QueueEvents(ss: seq<State>, steps: seq<Step>): seq<QueueRuns.Event>
    requires IsRun(ss, steps)
  {
    seq(|steps|, i requires 0 <= i < |steps| => assert FollowsAt(ss, steps, i); EventOf(ss[i], steps[i]))
  }

  /** So everything proved of queue runs (leases, overtaking, unavailability, termination) holds of the system. */
  lemma RunsProject(ss: seq<State>, steps: seq<Step>)
    requires IsRun(ss, steps)
    ensures QueueRuns.IsRun(QueueStates(ss), QueueEvents(ss, steps))
  {
    var qs, es := QueueStates(ss), QueueEvents(ss, steps);
    forall i
      ensures QueueRuns.FollowsAt(qs, es, i)
    {
      if 0 <= i < |es| {
        HoldAlways(ss, steps, i);
        assert FollowsAt(ss, steps, i);
        assert steps[i].Deliver? ==> BegunOk(ss[i], steps[i].request);
        StepProjects(ss[i], steps[i]);
      }
    }
  }

  lemma {:induction false} RowsEvolve(ss: seq<State>, steps: seq<Step>, i: nat, j: nat)
    requires IsRun(ss, steps) && i <= j < |ss|
    ensures Evolves(ss[i].db, ss[j].db)
  {
    RunsProject(ss, steps);
    QueueRuns.RunEvolves(QueueStates(ss), QueueEvents(ss, steps), i, j);
    assert QueueStates(ss)[i] == Abs(ss[i]) && QueueStates(ss)[j] == Abs(ss[j]);
  }

  lemma ReadyIsForever(ss: seq<State>, steps: seq<Step>, i: nat, j: nat, a: Attempt)
    requires IsRun(ss, steps) && i <= j < |ss|
    requires ReadyBy(ss[i].db, a)
    ensures ReadyBy(ss[j].db, a) && ss[j].db.songs[a.song] == ss[i].db.songs[a.song]
  {
    HoldAlways(ss, steps, i);
    assert RowOk(ss[i].db, a.song);
    RowsEvolve(ss, steps, i, j);
  }

  // ----- READY audio -----

  /** Five sizes, none of them zero. */
  predicate FiveFiles(files: map<AudioFile, nat>) {
    && files.Keys == {Full, Drums, Bass, Other, Vocals}
    && 0 < files[Full] && 0 < files[Drums] && 0 < files[Bass] && 0 < files[Other] && 0 < files[Vocals]
  }

  lemma AllFilesAreThere(files: map<AudioFile, nat>)
    ensures Whole(files) <==> FiveFiles(files)
  {
    forall f <- files
      ensures f in {Full, Drums, Bass, Other, Vocals}
    {
      match f
      case Full =>
      case Drums =>
      case Bass =>
      case Other =>
      case Vocals =>
    }
    if Whole(files) {
      assert HasAudio(files, Full) && HasAudio(files, Drums) && HasAudio(files, Bass);
      assert HasAudio(files, Other) && HasAudio(files, Vocals);
    }
    if FiveFiles(files) {
      forall f: AudioFile
        ensures HasAudio(files, f)
      {
        match f
        case Full =>
        case Drums =>
        case Bass =>
        case Other =>
        case Vocals =>
      }
    }
  }

  /** From the moment a song is READY its five path columns name the files of one attempt, and all five files exist,
      non-empty, in every later state. */
  lemma ReadyAudioIsNeverLost(b: Bounds, ss: seq<State>, steps: seq<Step>, i: nat, j: nat, id: SongId)
    requires IsTimelyRun(b, ss, steps) && i <= j < |ss|
    requires KeepsAudio(b)
    requires id in ss[i].db.songs && ss[i].db.songs[id].status.Ready?
    ensures id in ss[i].db.jobs
    ensures var a := Attempt(id, ss[i].db.jobs[id].attemptCount);
      && id in ss[j].db.songs && ss[j].db.songs[id].status.Ready? && HasAudioOf(ss[j].db.songs[id], a)
      && a in ss[j].songs && FiveFiles(ss[j].songs[a].files)
  {
    HoldAlways(ss, steps, i);
    HoldAlways(ss, steps, j);
    var a := Attempt(id, ss[i].db.jobs[id].attemptCount);
    ReadyIsForever(ss, steps, i, j, a);
    OutAlways(b, ss, steps, j);
    assert RowOk(ss[j].db, id) && AudioKept(b, ss[j], a);
    AllFilesAreThere(ss[j].songs[a].files);
  }

  /** In any run at all, what Publish renames out of a work directory at most one cleanup interval old is complete. Past
      that age it need not be: see Delays.PublicationAgeIsExact. */
  lemma PublicationIsWhole(ss: seq<State>, steps: seq<Step>, i: nat, a: Attempt)
    requires IsRun(ss, steps) && i < |steps|
    requires HeldBy(ss[i], steps[i], a) && steps[i].wk.PublishFinal?
    requires a in ss[i].work && ss[i].now <= ss[i].work[a].prepared + CLEANUP_INTERVAL
    ensures a !in ss[i].songs && a in ss[i + 1].songs
    ensures Whole(ss[i + 1].songs[a].files)
    ensures FiveFiles(ss[i + 1].songs[a].files)
  {
    HoldAlways(ss, steps, i);
    assert FollowsAt(ss, steps, i);
    StepFileSteps(ss[i], steps[i]);
    PublishIsSafe(ss[i], steps[i], ss[i + 1]);
    AllFilesAreThere(ss[i + 1].songs[a].files);
  }

  /** The "output already exists" error of Publish is unreachable, in any run. */
  lemma OutputNeverAlreadyExists(ss: seq<State>, steps: seq<Step>, i: nat, w: nat)
    requires IsRun(ss, steps) && i < |ss|
    requires WorkerOf(ss[i], w).Holding? && InProcess(WorkerOf(ss[i], w).stage)
    ensures WorkerOf(ss[i], w).job !in ss[i].songs
  {
    HoldAlways(ss, steps, i);
    assert Unpublished(ss[i], w);
  }

  // ----- Live inputs -----

  /** The input of every QUEUED or RUNNING job exists, and no cleanup has picked it. */
  lemma LiveInputIsNeverDeleted(b: Bounds, ss: seq<State>, steps: seq<Step>, i: nat, id: SongId)
    requires IsTimelyRun(b, ss, steps) && i < |ss|
    requires KeepsInputs(b)
    requires id in ss[i].db.jobs && ss[i].db.jobs[id].Live()
    ensures ss[i].db.jobs[id].input in ss[i].inputs && Unthreatened(ss[i], Input(ss[i].db.jobs[id].input))
  {
    InAlways(b, ss, steps, i);
    assert InputKept(ss[i], id);
  }

  // ----- Attempts in progress -----

  /** The cleanup's snapshot has the attempt under lease, and it has not picked its directories. */
  ghost predicate SparedBy(s: State, c: nat, a: Attempt) {
    c in s.cleaners &&
      var me := s.cleaners[c];
      && (me.phase.Clearing? || me.phase.Sweeping?) && IsActive(me.refs.active, a)
      && me.pending != Some(Work(a)) && me.pending != Some(Output(a))
  }

  lemma SparedKept(s: State, step: Step, c: nat, a: Attempt)
    requires Can(s, step) && SparedBy(s, c, a) && step != ByCleaner(c, End)
    ensures SparedBy(Do(s, step), c, a)
  {
    if step.ByUpload? {
      UploadTouches(s, step.u, step.up);
    }
  }

  /** A pass that finds an attempt under an unlapsed lease when it takes its snapshot never picks the attempt's work or
      output directory. */
  lemma {:induction false} ActiveAttemptIsSpared(ss: seq<State>, steps: seq<Step>, i: nat, j: nat, c: nat, a: Attempt)
    requires IsRun(ss, steps) && i < j < |ss|
    requires steps[i] == ByCleaner(c, TakeSnapshot) && forall k :: i < k < j ==> steps[k] != ByCleaner(c, End)
    requires c in ss[i].cleaners && a.song in ss[i].cleaners[c].rows && 0 < a.number
    requires var row := ss[i].cleaners[c].rows[a.song]; row.Leased(ss[i].now) && row.attemptCount == a.number
    ensures SparedBy(ss[j], c, a)
    decreases j
  {
    assert FollowsAt(ss, steps, j - 1);
    if i + 1 < j {
      ActiveAttemptIsSpared(ss, steps, i, j - 1, c, a);
      SparedKept(ss[j - 1], steps[j - 1], c, a);
    } else {
      HoldAlways(ss, steps, i);
      assert PassOk(ss[i], c);
    }
  }

  // ----- Attempts that can no longer complete -----

  ghost predicate Abandons(s: State, w: nat, a: Attempt) {
    var me := WorkerOf(s, w);
    me.Holding? && me.job == a ==>
      || me.stage.Discarding? || me.stage.Recording?
      || (!me.stage.Completing? && (me.renewFailed || me.cancelled || me.timedOut))
  }

  ghost predicate NotSent(s: State, a: Attempt, filled: Time) {
    CompleteRequest(a, filled) !in s.inFlight
  }

  /** The attempt was handed out, but no holder and no request in flight can make it the song's output any more. */
  ghost predicate Doomed(s: State, a: Attempt) {
    && Handed(s.db, a) && !ReadyBy(s.db, a)
    && (forall w :: Abandons(s, w, a))
    && (forall filled :: NotSent(s, a, filled))
  }

  lemma HolderCanDoom(s: State, w: nat)
    requires Hold(s) && WorkerOf(s, w).Holding? && Abandons(s, w, WorkerOf(s, w).job)
    ensures Doomed(s, WorkerOf(s, w).job)
  {
    var a := WorkerOf(s, w).job;
    assert HolderOk(s, w) && ReadyUnheld(s, w);
    forall v
      ensures Abandons(s, v, a)
    {
      assert HoldersDiffer(s, v, w);
    }
    forall filled
      ensures NotSent(s, a, filled)
    {
      assert RequestUnheld(s, CompleteRequest(a, filled), w);
    }
  }

  lemma AbandonsKept(s: State, w: nat, a: WorkerAction, x: Attempt)
    requires CanWorker(s, w, a) && Handed(s.db, x) && Abandons(s, w, x)
    requires WorkerAfter(s, w, a).Holding? && WorkerAfter(s, w, a).job == x
    ensures var me := WorkerAfter(s, w, a);
      || me.stage.Discarding? || me.stage.Recording?
      || (!me.stage.Completing? && (me.renewFailed || me.cancelled || me.timedOut))
  {
  }

  lemma DoomedKept(s: State, step: Step, next: State, a: Attempt)
    requires Can(s, step) && FileSteps(s, step, next) && Doomed(s, a)
    ensures Doomed(next, a)
  {
    forall w
      ensures Abandons(next, w, a)
    {
      assert Abandons(s, w, a) && Moves(s, step, next, w);
      if step.ByWorker? && step.w == w && WorkerOf(next, w).Holding? && WorkerOf(next, w).job == a {
        AbandonsKept(s, w, step.wk, a);
      }
    }
    forall filled
      ensures NotSent(next, a, filled)
    {
      assert NotSent(s, a, filled) && Sends(s, step, next, CompleteRequest(a, filled));
      if step.ByWorker? {
        assert Abandons(s, step.w, a);
      }
    }
    assert ReadyFrom(s.db, next.db, Query(s, step), a);
    if step.ByWorker? {
      assert Abandons(s, step.w, a);
    } else if step.Deliver? && step.request.CompleteRequest? {
      assert NotSent(s, a, step.request.filled);
    }
  }

  lemma {:induction false} DoomedForever(ss: seq<State>, steps: seq<Step>, i: nat, j: nat, a: Attempt)
    requires IsRun(ss, steps) && i <= j < |ss| && Doomed(ss[i], a)
    ensures Doomed(ss[j], a)
    decreases j
  {
    if i < j {
      DoomedForever(ss, steps, i, j - 1, a);
      HoldAlways(ss, steps, j - 1);
      assert FollowsAt(ss, steps, j - 1);
      StepFileSteps(ss[j - 1], steps[j - 1]);
      DoomedKept(ss[j - 1], steps[j - 1], ss[j], a);
    }
  }

  /** A directory that some worker discards is never, before or after, one that a song's row refers to. */
  lemma DiscardNeverHitsLiveOutput(ss: seq<State>, steps: seq<Step>, i: nat, j: nat, a: Attempt)
    requires IsRun(ss, steps) && i < |steps| && j < |ss|
    requires HeldBy(ss[i], steps[i], a) && steps[i].wk.Discard?
    ensures a !in Referenced(OutputPaths(ss[j].db.songs))
  {
    HoldAlways(ss, steps, i);
    HoldAlways(ss, steps, j);
    assert FollowsAt(ss, steps, i);
    HolderCanDoom(ss[i], steps[i].w);
    ReferencedIsReady(ss[j].db, a);
    if j < i {
      if ReadyBy(ss[j].db, a) {
        ReadyIsForever(ss, steps, j, i, a);
      }
    } else {
      DoomedForever(ss, steps, i, j, a);
    }
  }

  predicate SendsComplete(a: WorkerAction) {
    a.SendComplete? || a.LoseComplete?
  }

  predicate SendsFinishing(a: WorkerAction) {
    SendsComplete(a) || a.SendRecord? || a.LoseRecord?
  }

  /** After a recorded renewal failure, a shutdown or a missed deadline, nobody ever issues complete for the attempt,
      and it never becomes the song's output. */
  lemma AbandonedNeverCompletes(ss: seq<State>, steps: seq<Step>, i: nat, j: nat, w: nat)
    requires IsRun(ss, steps) && i <= j < |steps|
    requires WorkerOf(ss[i], w).Holding?
    requires WorkerOf(ss[i], w).renewFailed || WorkerOf(ss[i], w).cancelled || WorkerOf(ss[i], w).timedOut
    ensures var a := WorkerOf(ss[i], w).job;
      && !ReadyBy(ss[j].db, a)
      && !(HeldBy(ss[j], steps[j], a) && SendsComplete(steps[j].wk))
  {
    HoldAlways(ss, steps, i);
    assert HolderOk(ss[i], w);
    HolderCanDoom(ss[i], w);
    DoomedForever(ss, steps, i, j, WorkerOf(ss[i], w).job);
    assert FollowsAt(ss, steps, j);
    if steps[j].ByWorker? {
      assert Abandons(ss[j], steps[j].w, WorkerOf(ss[i], w).job);
    }
  }

  // ----- One finishing request per attempt -----

  ghost predicate LetGo(s: State, w: nat, a: Attempt) {
    WorkerOf(s, w).Holding? && WorkerOf(s, w).job == a ==>
        WorkerOf(s, w).stage.Discarding? && !WorkerOf(s, w).stage.recordNext
  }

  ghost predicate Spent(s: State, a: Attempt) {
    Handed(s.db, a) && forall w :: LetGo(s, w, a)
  }

  lemma SpentKept(s: State, step: Step, next: State, a: Attempt)
    requires Can(s, step) && FileSteps(s, step, next) && Spent(s, a)
    ensures Spent(next, a)
  {
    forall w
      ensures LetGo(next, w, a)
    {
      assert LetGo(s, w, a) && Moves(s, step, next, w);
    }
  }

  lemma {:induction false} SpentForever(ss: seq<State>, steps: seq<Step>, i: nat, j: nat, a: Attempt)
    requires IsRun(ss, steps) && i <= j < |ss| && Spent(ss[i], a)
    ensures Spent(ss[j], a)
    decreases j
  {
    if i < j {
      SpentForever(ss, steps, i, j - 1, a);
      HoldAlways(ss, steps, j - 1);
      assert FollowsAt(ss, steps, j - 1);
      StepFileSteps(ss[j - 1], steps[j - 1]);
      SpentKept(ss[j - 1], steps[j - 1], ss[j], a);
    }
  }

  lemma FinishingSpends(s: State, step: Step, next: State, a: Attempt)
    requires Can(s, step) && FileSteps(s, step, next) && HeldBy(s, step, a) && SendsFinishing(step.wk)
    ensures Spent(next, a)
  {
    assert HolderOk(s, step.w);
    forall w
      ensures LetGo(next, w, a)
    {
      assert Moves(s, step, next, w) && HoldersDiffer(s, step.w, w);
    }
  }

  lemma SpentNext(ss: seq<State>, steps: seq<Step>, i: nat, a: Attempt)
    requires IsRun(ss, steps) && i < |steps| && HeldBy(ss[i], steps[i], a) && SendsFinishing(steps[i].wk)
    ensures Spent(ss[i + 1], a)
  {
    HoldAlways(ss, steps, i);
    assert FollowsAt(ss, steps, i);
    StepFileSteps(ss[i], steps[i]);
    FinishingSpends(ss[i], steps[i], ss[i + 1], a);
  }

  lemma SpentSendsNothing(s: State, step: Step, a: Attempt)
    requires Can(s, step) && Spent(s, a)
    ensures !(HeldBy(s, step, a) && SendsFinishing(step.wk))
  {
    if step.ByWorker? {
      assert LetGo(s, step.w, a);
    }
  }

  /** Whoever holds an attempt issues at most one of complete, retry and fail for it, and so does everyone together. */
  lemma OneFinishingRequest(ss: seq<State>, steps: seq<Step>, i: nat, j: nat, a: Attempt)
    requires IsRun(ss, steps) && i < j < |steps|
    requires HeldBy(ss[i], steps[i], a) && SendsFinishing(steps[i].wk)
    ensures !(HeldBy(ss[j], steps[j], a) && SendsFinishing(steps[j].wk))
  {
    SpentNext(ss, steps, i, a);
    assert FollowsAt(ss, steps, j);
    SpentForever(ss, steps, i + 1, j, a);
    SpentSendsNothing(ss[j], steps[j], a);
  }
}
