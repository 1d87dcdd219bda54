/** The delay conditions are exact: beyond them there is a run that loses a READY song's audio, or a live job's
    input. */
module Delays {
  import opened Prelude
  import opened SongJobs
  import opened Snapshots
  import opened Protocol
  import opened Cleaners
  import opened Guarantees
  import opened Outputs

  // ----- Reachability -----

  ghost predicate Reachable(b: Bounds, s: State) {
    exists ss, steps :: IsTimelyRun(b, ss, steps) && ss[|ss| - 1] == s
  }

  ghost predicate Leads(b: Bounds, s: State, step: Step, next: State) {
    Can(s, step) && Timely(b, s, step) && Do(s, step) == next
  }

  lemma Extend(b: Bounds, ss: seq<State>, steps: seq<Step>, step: Step, next: State)
    requires IsTimelyRun(b, ss, steps) && Leads(b, ss[|ss| - 1], step, next)
    ensures IsTimelyRun(b, ss + [next], steps + [step])
  {
    forall i
      ensures FollowsAt(ss + [next], steps + [step], i) && TimelyAt(b, ss + [next], steps + [step], i)
    {
      assert FollowsAt(ss, steps, i) && TimelyAt(b, ss, steps, i);
    }
  }

  lemma Reach(b: Bounds, s: State, step: Step, next: State)
    requires Reachable(b, s) && Leads(b, s, step, next)
    ensures Reachable(b, next)
  {
    var ss, steps :| IsTimelyRun(b, ss, steps) && ss[|ss| - 1] == s;
    Extend(b, ss, steps, step, next);
    var longer := ss + [next];
    assert longer[|longer| - 1] == next;
  }

  lemma Waits(b: Bounds, s: State, elapsed: nat, next: State)
    requires Reachable(b, s) && next == s.(now := s.now + elapsed)
    ensures Reachable(b, next)
  {
    Reach(b, s, Tick(elapsed), next);
  }

  lemma ReachByCleaner(b: Bounds, s: State, a: CleanerAction, next: State)
    requires Reachable(b, s) && CanClean(s, 0, a) && DoClean(s, 0, a) == next
    requires a.TakeCutoff? ==>
      s.now <= s.cleaners[0].jobsAt + b.listJobs && s.now <= s.cleaners[0].outputsAt + b.listOutputs
    ensures Reachable(b, next)
  {
    Reach(b, s, ByCleaner(0, a), next);
  }

  /** For the steps of a worker that ask nothing of the database. */
  lemma ReachByWorker(b: Bounds, s: State, a: WorkerAction, next: State)
    requires Reachable(b, s) && CanWorker(s, 0, a) && DoWorker(s, 0, a) == next
    requires a.Prepare? || a.Produce? || a.CheckClip? || a.StartPublish? || a.MoveFile? || a.PublishFinal?
          || (a.Decide? && s.now <= WorkerOf(s, 0).prepared + b.attempt)
    ensures Reachable(b, next)
  {
    Reach(b, s, ByWorker(0, a), next);
  }

  lemma ReachByUpload(b: Bounds, s: State, a: UploadAction, next: State)
    requires Reachable(b, s) && CanUpload(s, 0, a) && DoUpload(s, 0, a) == next
    requires a.CreateInput? || a.StageInput? || a.BeginTx?
    ensures Reachable(b, next)
  {
    Reach(b, s, ByUpload(0, a), next);
  }

  // ----- The states of the two runs: one song, one worker, one cleanup -----

  const FIRST := Attempt(0, 1)

  ghost function Queued1(): Db { EnqueueJob(EMPTY_DB, 0, 0, 0) }

  ghost function Running1(): Db { ClaimRow(Queued1(), 0, 0) }

  ghost function Ready1(now: Time): Db { CompleteJob(Running1(), FIRST, PublishedFor(FIRST), now) }

  ghost function Uploading(now: Time, up: Upload, cleaners: map<nat, Cleaner>): State {
    State(now, EMPTY_DB, map[0 := 0], {0}, map[], map[], map[0 := up], map[], cleaners, {})
  }

  ghost function Idle(now: Time, cleaners: map<nat, Cleaner>): State {
    State(now, Queued1(), map[0 := 0], {0}, map[], map[], map[], map[], cleaners, {})
  }

  ghost function At(now: Time, db: Db, stage: Stage, work: map<Attempt, WorkDir>, songs: map<Attempt, OutDir>,
      cleaners: map<nat, Cleaner>): State
  {
    State(now, db, map[0 := 0], {0}, work, songs, map[], map[0 := Holding(FIRST, 0, 0, stage, false, false, false)],
        cleaners, {})
  }

  /** The files from place `from` up to place `to`, one byte each. */
  ghost function Files(from: nat, to: nat): map<AudioFile, nat> {
    map f: AudioFile | from <= Place(f) < to :: 1
  }

  ghost function Dir(mtime: Time, sources: map<AudioFile, nat>, result: map<AudioFile, nat>): map<Attempt, WorkDir> {
    map[FIRST := WorkDir(0, mtime, sources, result, mtime, false)]
  }

  // ----- The upload -----

  lemma WritesAtOnce(b: Bounds)
    ensures Reachable(b, Uploading(0, Writing(0), map[]))
  {
    var start := State(0, EMPTY_DB, map[], {}, map[], map[], map[], map[], map[], {});
    assert IsTimelyRun(b, [start], []);
    ReachByUpload(b, start, CreateInput(0), Uploading(0, Writing(0), map[]));
  }

  lemma StagedAtOnce(b: Bounds)
    ensures Reachable(b, Uploading(0, Open(0, 0, 0), map[]))
  {
    WritesAtOnce(b);
    ReachByUpload(b, Uploading(0, Writing(0), map[]), StageInput, Uploading(0, Staged(0, 0), map[]));
    ReachByUpload(b, Uploading(0, Staged(0, 0), map[]), BeginTx, Uploading(0, Open(0, 0, 0), map[]));
  }

  lemma CommitsAt(b: Bounds, now: Time, cleaners: map<nat, Cleaner>)
    requires Reachable(b, Uploading(now, Open(0, 0, 0), cleaners)) && 0 <= now <= b.stage
    ensures Reachable(b, Idle(now, cleaners))
  {
    var s, step := Uploading(now, Open(0, 0, 0), cleaners), ByUpload(0, Commit(0));
    assert s.uploads - {0} == map[];
    Reach(b, s, step, Idle(now, cleaners));
  }

  // ----- The attempt, all at time 0 -----

  lemma Claims(b: Bounds)
    requires Reachable(b, Idle(0, map[]))
    ensures Reachable(b, At(0, Running1(), Working(false), Dir(0, map[], map[]), map[], map[]))
  {
    var claimed := At(0, Running1(), Fresh, map[], map[], map[]);
    Reach(b, Idle(0, map[]), ByWorker(0, ClaimJob(0)), claimed);
    ReachByWorker(b, claimed, Prepare, At(0, Running1(), Working(false), Dir(0, map[], map[]), map[], map[]));
  }

  ghost function Made(n: nat): State {
    At(0, Running1(), Working(true), Dir(0, Files(0, n), map[]), map[], map[])
  }

  /** All files made at time 0, the first n moved at time `now`. */
  ghost function Moved(now: Time, n: nat, cleaners: map<nat, Cleaner>): State {
    At(now, Running1(), Publishing(n), Dir(if n == 0 then 0 else now, Files(n, FILES), Files(0, n)), map[], cleaners)
  }

  lemma MakesClip(b: Bounds)
    requires Reachable(b, At(0, Running1(), Working(false), Dir(0, map[], map[]), map[], map[]))
    ensures Reachable(b, Made(1))
  {
    var s := At(0, Running1(), Working(false), Dir(0, map[], map[]), map[], map[]);
    var clip := At(0, Running1(), Working(false), Dir(0, Files(0, 1), map[]), map[], map[]);
    assert map[][Full := 1] == Files(0, 1);
    ReachByWorker(b, s, Produce(Full, 1), clip);
    ReachByWorker(b, clip, CheckClip, Made(1));
  }

  lemma MakesStem(b: Bounds, n: nat)
    requires 1 <= n < FILES && Reachable(b, Made(n))
    ensures Reachable(b, Made(n + 1))
  {
    FilesShift(n);
    ReachByWorker(b, Made(n), Produce(FileAt(n), 1), Made(n + 1));
  }

  lemma {:induction false} Produces(b: Bounds, n: nat)
    requires 1 <= n <= FILES && Reachable(b, Made(1))
    ensures Reachable(b, Made(n))
  {
    if n > 1 {
      Produces(b, n - 1);
      MakesStem(b, n - 1);
    }
  }

  lemma StartsPublishing(b: Bounds)
    requires Reachable(b, Made(FILES))
    ensures Reachable(b, Moved(0, 0, map[]))
  {
    assert Files(0, 0) == map[];
    ReachByWorker(b, Made(FILES), StartPublish, Moved(0, 0, map[]));
  }

  lemma FilesShift(n: nat)
    requires n < FILES
    ensures FileAt(n) in Files(n, FILES) && Files(n, FILES)[FileAt(n)] == 1
    ensures Files(n, FILES) - {FileAt(n)} == Files(n + 1, FILES)
    ensures Files(0, n)[FileAt(n) := 1] == Files(0, n + 1)
  {
  }

  lemma MoveFileMoves(now: Time, n: nat, cleaners: map<nat, Cleaner>)
    requires n < FILES && CanWorker(Moved(now, n, cleaners), 0, MoveFile)
    ensures WorkAfter(Moved(now, n, cleaners), 0, MoveFile) == Moved(now, n + 1, cleaners).work
  {
    FilesShift(n);
  }

  lemma MovesOne(b: Bounds, now: Time, n: nat, cleaners: map<nat, Cleaner>)
    requires n < FILES && Reachable(b, Moved(now, n, cleaners))
    ensures Reachable(b, Moved(now, n + 1, cleaners))
  {
    FilesShift(n);
    assert CanWorker(Moved(now, n, cleaners), 0, MoveFile);
    MoveFileMoves(now, n, cleaners);
    ReachByWorker(b, Moved(now, n, cleaners), MoveFile, Moved(now, n + 1, cleaners));
  }

  lemma {:induction false} Moves(b: Bounds, now: Time, n: nat, cleaners: map<nat, Cleaner>)
    requires n <= FILES && Reachable(b, Moved(now, 0, cleaners))
    ensures Reachable(b, Moved(now, n, cleaners))
  {
    if n > 0 {
      Moves(b, now, n - 1, cleaners);
      MovesOne(b, now, n - 1, cleaners);
    }
  }

  lemma ReadyToPublish(b: Bounds)
    requires BoundsOk(b)
    ensures Reachable(b, Moved(0, 0, map[]))
  {
    StagedAtOnce(b);
    CommitsAt(b, 0, map[]);
    Claims(b);
    MakesClip(b);
    Produces(b, FILES);
    StartsPublishing(b);
  }

  ghost function Output1(): map<Attempt, OutDir> {
    map[FIRST := OutDir(Files(0, FILES), 0)]
  }

  ghost function Filled1(now: Time, cleaners: map<nat, Cleaner>): State {
    At(now, Running1(), Completing(0), map[], Output1(), cleaners)
  }

  lemma Publishes(b: Bounds)
    requires BoundsOk(b)
    ensures Reachable(b, Filled1(0, map[]))
  {
    ReadyToPublish(b);
    Moves(b, 0, FILES, map[]);
    var moved := Moved(0, FILES, map[]);
    var returned := At(0, Running1(), Returned(Some(0)), map[], Output1(), map[]);
    assert moved.work - {FIRST} == map[];
    ReachByWorker(b, moved, PublishFinal(true), returned);
    ReachByWorker(b, returned, Decide, Filled1(0, map[]));
  }

  lemma NothingReferenced()
    ensures Referenced(OutputPaths(Queued1().songs)) == {} && Referenced(OutputPaths(Running1().songs)) == {}
  {
    assert PathsOf(NEW_SONG) == {};
    assert OutputPaths(Queued1().songs) == {} && OutputPaths(Running1().songs) == {};
  }

  // ----- READY audio -----

  ghost function Listed(now: Time, rows: map<SongId, Job>): Cleaner {
    Cleaner(ListedOutputs, now, rows, now, {}, References({}, {}, map[]), now, None)
  }

  ghost function Done1(now: Time, completed: Time, songs: map<Attempt, OutDir>, c: Cleaner): State {
    State(now, Ready1(completed), map[0 := 0], {0}, map[], songs, map[], map[0 := Free({0})], map[0 := c], {})
  }

  lemma ListsBeforeComplete(b: Bounds)
    requires BoundsOk(b)
    ensures Reachable(b, Filled1(b.publish, map[0 := Listed(b.publish, Running1().jobs)]))
  {
    var p, rows := b.publish, Running1().jobs;
    Publishes(b);
    var jobsListed := Cleaner(ListedJobs, p, rows, p, {}, References({}, {}, map[]), p, None);
    NothingReferenced();
    Waits(b, Filled1(0, map[]), p, Filled1(p, map[]));
    ReachByCleaner(b, Filled1(p, map[]), ListJobs, Filled1(p, map[0 := jobsListed]));
    ReachByCleaner(b, Filled1(p, map[0 := jobsListed]), ListOutputs, Filled1(p, map[0 := Listed(p, rows)]));
  }

  /** The cleanup lists jobs and outputs just before the complete request is applied. */
  lemma ListsThenCompletes(b: Bounds)
    requires BoundsOk(b)
    ensures Reachable(b, Done1(b.publish, b.publish, Output1(), Listed(b.publish, Running1().jobs)))
  {
    var p, rows := b.publish, Running1().jobs;
    ListsBeforeComplete(b);
    Reach(b, Filled1(p, map[0 := Listed(p, rows)]), ByWorker(0, SendComplete), Done1(p, p, Output1(), Listed(p, rows)));
  }

  /** Later it takes the lapsed lease for an abandoned attempt, counts the directory as old, and removes it. */
  lemma ReadyAudioIsLost(b: Bounds) returns (s: State)
    requires BoundsOk(b) && b.listOutputs <= b.listJobs && CLEANUP_INTERVAL < b.publish + b.listOutputs
    ensures Reachable(b, s) && 0 in s.db.songs && s.db.songs[0].status.Ready? && s.songs == map[]
  {
    var p, now := b.publish, b.publish + b.listOutputs;
    FixesCutoff(b);
    var sweeping := Sweeping1(p, now);
    var picked := sweeping.(pending := Some(Output(FIRST)));
    ReachByCleaner(b, Done1(now, p, Output1(), sweeping), Inspect(Output(FIRST)), Done1(now, p, Output1(), picked));
    assert Output1() - {FIRST} == map[];
    s := Done1(now, p, map[], sweeping);
    ReachByCleaner(b, Done1(now, p, Output1(), picked), Remove(None), s);
  }

  ghost function Sweeping1(listed: Time, now: Time): Cleaner {
    Listed(listed, Running1().jobs).(phase := Sweeping, refs := References({0}, {}, map[]),
        cutoff := now - CLEANUP_INTERVAL)
  }

  lemma FixesCutoff(b: Bounds)
    requires BoundsOk(b) && b.listOutputs <= b.listJobs && CLEANUP_INTERVAL < b.publish + b.listOutputs
    ensures Reachable(b, Done1(b.publish + b.listOutputs, b.publish, Output1(),
      Sweeping1(b.publish, b.publish + b.listOutputs)))
  {
    var p, now := b.publish, b.publish + b.listOutputs;
    ListsThenCompletes(b);
    var listed := Listed(p, Running1().jobs);
    RunningReferences(now);
    var cleared := listed.(phase := Clearing, refs := References({0}, {}, map[]));
    Waits(b, Done1(p, p, Output1(), listed), b.listOutputs, Done1(now, p, Output1(), listed));
    ReachByCleaner(b, Done1(now, p, Output1(), listed), TakeSnapshot, Done1(now, p, Output1(), cleared));
    ReachByCleaner(b, Done1(now, p, Output1(), cleared), TakeCutoff, Done1(now, p, Output1(), Sweeping1(p, now)));
  }

  const LATE: Time := CLEANUP_INTERVAL + 1

  ghost function LateSweep(pending: Option<Target>): Cleaner {
    Cleaner(Sweeping, LATE, Running1().jobs, LATE, {}, References({0}, {}, map[]), LATE - CLEANUP_INTERVAL, pending)
  }

  /** A worker stalls for an interval before it moves its files; a cleanup finds the work directory old and picks it. */
  lemma PicksStalledWork(b: Bounds)
    requires BoundsOk(b)
    ensures Reachable(b, Moved(LATE, 0, map[0 := LateSweep(Some(Work(FIRST)))]))
  {
    var rows := Running1().jobs;
    ListsDuringStall(b);
    var cleared := Listed(LATE, rows).(phase := Clearing, refs := References({0}, {}, map[]));
    RunningReferences(LATE);
    ReachByCleaner(b, Moved(LATE, 0, map[0 := Listed(LATE, rows)]), TakeSnapshot, Moved(LATE, 0, map[0 := cleared]));
    ReachByCleaner(b, Moved(LATE, 0, map[0 := cleared]), TakeCutoff, Moved(LATE, 0, map[0 := LateSweep(None)]));
    ReachByCleaner(b, Moved(LATE, 0, map[0 := LateSweep(None)]), Inspect(Work(FIRST)),
          Moved(LATE, 0, map[0 := LateSweep(Some(Work(FIRST)))]));
  }

  lemma ListsDuringStall(b: Bounds)
    requires BoundsOk(b)
    ensures Reachable(b, Moved(LATE, 0, map[0 := Listed(LATE, Running1().jobs)]))
  {
    var rows := Running1().jobs;
    ReadyToPublish(b);
    var c := Cleaner(ListedJobs, LATE, rows, LATE, {}, References({}, {}, map[]), LATE, None);
    NothingReferenced();
    Waits(b, Moved(0, 0, map[]), LATE, Moved(LATE, 0, map[]));
    ReachByCleaner(b, Moved(LATE, 0, map[]), ListJobs, Moved(LATE, 0, map[0 := c]));
    ReachByCleaner(b, Moved(LATE, 0, map[0 := c]), ListOutputs, Moved(LATE, 0, map[0 := Listed(LATE, rows)]));
  }

  lemma RunningReferences(now: Time)
    requires LEASE <= now
    ensures ReferencesOf(Running1().jobs, now) == References({0}, {}, map[])
  {
    var rows := Running1().jobs;
    assert rows == map[0 := Job(0, Running, 1, 0, Some(LEASE), 0, Some(0), None)];
    assert rows[0].Live() && rows[0].input == 0 && !rows[0].Leased(now);
    assert NeededInputs(rows) == {0} && TerminalInputs(rows) == {} && ActiveAttempts(rows, now) == map[];
  }

  /** The worker moves its files, the cleanup removes them one directory down, and the worker publishes what is left. */
  lemma TearsFilledWork(b: Bounds)
    requires BoundsOk(b)
    ensures Reachable(b, Torn1())
  {
    var cs := map[0 := LateSweep(Some(Work(FIRST)))];
    PicksStalledWork(b);
    Moves(b, LATE, FILES, cs);
    assert Keep(Files(FILES, FILES), {}) == map[] && Keep(Files(0, FILES), {}) == map[];
    ReachByCleaner(b, Moved(LATE, FILES, cs), Remove(Some({})), Torn1());
  }

  ghost function Torn1(): State {
    At(LATE, Running1(), Publishing(FILES), map[FIRST := WorkDir(0, LATE, map[], map[], LATE, true)], map[],
       map[0 := LateSweep(Some(Work(FIRST)))])
  }

  ghost function TornAt(stage: Stage): State {
    At(LATE, Running1(), stage, map[], map[FIRST := OutDir(map[], LATE)], map[0 := LateSweep(Some(Work(FIRST)))])
  }

  lemma TornPublishes(b: Bounds)
    ensures Leads(b, Torn1(), ByWorker(0, PublishFinal(true)), TornAt(Returned(Some(LATE))))
  {
    assert Torn1().work - {FIRST} == map[];
  }

  lemma PublishesTorn(b: Bounds)
    requires BoundsOk(b)
    ensures Reachable(b, TornAt(Returned(Some(LATE))))
  {
    TearsFilledWork(b);
    TornPublishes(b);
    Reach(b, Torn1(), ByWorker(0, PublishFinal(true)), TornAt(Returned(Some(LATE))));
  }

  /** A work directory no older than `age` is published whole. */
  ghost predicate PublishedWhole(age: Time, ss: seq<State>, steps: seq<Step>, i: nat, a: Attempt)
    requires IsRun(ss, steps)
  {
    i < |steps| && HeldBy(ss[i], steps[i], a) && steps[i].wk.PublishFinal?
    && a in ss[i].work && ss[i].now <= ss[i].work[a].prepared + age ==>
      a in ss[i + 1].songs && Whole(ss[i + 1].songs[a].files)
  }

  /** Publication is all or nothing in every run, up to exactly the age at which a cleanup can be tearing the directory
      down. */
  lemma PublicationAgeIsExact(age: Time)
    ensures (forall ss, steps, i: nat, a | IsRun(ss, steps) :: PublishedWhole(age, ss, steps, i, a))
       <==> age <= CLEANUP_INTERVAL
  {
    if age <= CLEANUP_INTERVAL {
      forall ss: seq<State>, steps: seq<Step>, i: nat, a: Attempt | IsRun(ss, steps)
        ensures PublishedWhole(age, ss, steps, i, a)
      {
        if i < |steps| && HeldBy(ss[i], steps[i], a) && steps[i].wk.PublishFinal?
           && a in ss[i].work && ss[i].now <= ss[i].work[a].prepared + age {
          PublicationIsWhole(ss, steps, i, a);
        }
      }
    } else {
      var ss, steps := EmptyPublication();
      assert !HasAudio(map[], Full);
      assert !PublishedWhole(age, ss, steps, |steps| - 1, FIRST);
    }
  }

  /** A run that ends by publishing an emptied directory one tick past the interval. */
  lemma EmptyPublication() returns (ss: seq<State>, steps: seq<Step>)
    ensures IsRun(ss, steps) && steps != [] && ss[|steps| - 1] == Torn1()
    ensures steps[|steps| - 1] == ByWorker(0, PublishFinal(true)) && ss[|steps|] == TornAt(Returned(Some(LATE)))
  {
    var b := Bounds(0, 0, 0, 0, 0, 0);
    TearsFilledWork(b);
    ss, steps :| IsTimelyRun(b, ss, steps) && ss[|ss| - 1] == Torn1();
    TornPublishes(b);
    Extend(b, ss, steps, ByWorker(0, PublishFinal(true)), TornAt(Returned(Some(LATE))));
    ss, steps := ss + [TornAt(Returned(Some(LATE)))], steps + [ByWorker(0, PublishFinal(true))];
  }

  lemma TornOutputIsPublished(b: Bounds) returns (s: State)
    requires BoundsOk(b) && CLEANUP_INTERVAL < b.attempt
    ensures Reachable(b, s) && 0 in s.db.songs && s.db.songs[0].status.Ready?
      && s.songs == map[FIRST := OutDir(map[], LATE)]
  {
    PublishesTorn(b);
    ReachByWorker(b, TornAt(Returned(Some(LATE))), Decide, TornAt(Completing(LATE)));
    s := Done1(LATE, LATE, map[FIRST := OutDir(map[], LATE)], LateSweep(Some(Work(FIRST))));
    Reach(b, TornAt(Completing(LATE)), ByWorker(0, SendComplete), s);
  }

  ghost predicate AudioIntact(s: State) {
    forall id <- s.db.songs :: s.db.songs[id].status.Ready? ==>
      id in s.db.jobs && var a := Attempt(id, s.db.jobs[id].attemptCount); a in s.songs && Whole(s.songs[a].files)
  }

  lemma DelaysInOrder(b: Bounds)
    requires BoundsOk(b) && b.listOutputs <= b.listJobs
    ensures (forall s :: Reachable(b, s) ==> AudioIntact(s))
       <==> b.publish + b.listOutputs <= CLEANUP_INTERVAL && b.attempt <= CLEANUP_INTERVAL
  {
    if KeepsAudio(b) {
      forall s | Reachable(b, s)
        ensures AudioIntact(s)
      {
        var ss, steps :| IsTimelyRun(b, ss, steps) && ss[|ss| - 1] == s;
        forall id | id in s.db.songs && s.db.songs[id].status.Ready?
          ensures id in s.db.jobs
          ensures var a := Attempt(id, s.db.jobs[id].attemptCount); a in s.songs && Whole(s.songs[a].files)
        {
          ReadyAudioIsNeverLost(b, ss, steps, |ss| - 1, |ss| - 1, id);
          AllFilesAreThere(s.songs[Attempt(id, s.db.jobs[id].attemptCount)].files);
        }
      }
    } else if b.attempt <= CLEANUP_INTERVAL {
      var s := ReadyAudioIsLost(b);
      assert !AudioIntact(s);
    } else {
      var s := TornOutputIsPublished(b);
      assert !HasAudio(map[], Full);
      assert !AudioIntact(s);
    }
  }

  /** The outputs are listed after the jobs, so the bound on the jobs query bounds the outputs query too. */
  function Tightened(b: Bounds): Bounds {
    b.(listOutputs := Min(b.listOutputs, b.listJobs))
  }

  lemma TightenedIsTimely(b: Bounds, ss: seq<State>, steps: seq<Step>)
    requires IsRun(ss, steps)
    ensures IsTimelyRun(b, ss, steps) <==> IsTimelyRun(Tightened(b), ss, steps)
  {
    forall i
      ensures TimelyAt(b, ss, steps, i) <==> TimelyAt(Tightened(b), ss, steps, i)
    {
      if 0 <= i < |steps| && steps[i].ByCleaner? {
        HoldAlways(ss, steps, i);
        assert PassOk(ss[i], steps[i].c);
      }
    }
  }

  lemma SameReach(b: Bounds, s: State)
    ensures Reachable(b, s) <==> Reachable(Tightened(b), s)
  {
    if Reachable(b, s) {
      var ss, steps :| IsTimelyRun(b, ss, steps) && ss[|ss| - 1] == s;
      TightenedIsTimely(b, ss, steps);
    }
    if Reachable(Tightened(b), s) {
      var ss, steps :| IsTimelyRun(Tightened(b), ss, steps) && ss[|ss| - 1] == s;
      TightenedIsTimely(b, ss, steps);
    }
  }

  /** READY songs keep their audio in every timely run exactly when the publish delay and the time from listing the
      outputs to the cutoff add up to at most the cleanup interval, and the attempt timeout is at most that. */
  lemma AudioDelaysAreExact(b: Bounds)
    requires BoundsOk(b)
    ensures (forall s :: Reachable(b, s) ==> AudioIntact(s))
       <==> b.publish + Min(b.listOutputs, b.listJobs) <= CLEANUP_INTERVAL && b.attempt <= CLEANUP_INTERVAL
  {
    DelaysInOrder(Tightened(b));
    forall s
      ensures Reachable(b, s) <==> Reachable(Tightened(b), s)
    {
      SameReach(b, s);
    }
  }

  // ----- Live inputs -----

  /** The cleanup lists the jobs just before the upload commits, and later counts the upload's file as old. */
  lemma LiveInputIsLost(b: Bounds) returns (s: State)
    requires BoundsOk(b) && CLEANUP_INTERVAL < b.stage + b.listJobs
    ensures Reachable(b, s) && 0 in s.db.jobs && s.db.jobs[0].state.Queued? && s.inputs == map[]
  {
    var p, now := b.stage, b.stage + b.listJobs;
    StagedAtOnce(b);
    var c := Cleaner(ListedJobs, p, map[], p, {}, References({}, {}, map[]), p, None);
    Waits(b, Uploading(0, Open(0, 0, 0), map[]), p, Uploading(p, Open(0, 0, 0), map[]));
    ReachByCleaner(b, Uploading(p, Open(0, 0, 0), map[]), ListJobs, Uploading(p, Open(0, 0, 0), map[0 := c]));
    CommitsAt(b, p, map[0 := c]);
    Waits(b, Idle(p, map[0 := c]), b.listJobs, Idle(now, map[0 := c]));
    SweepsTheInput(b, c, now);
    s := Idle(now, map[0 := Swept(c, now)]).(inputs := map[]);
  }

  ghost function Swept(c: Cleaner, now: Time): Cleaner {
    c.(phase := Sweeping, outputsAt := now, cutoff := now - CLEANUP_INTERVAL)
  }

  lemma SweepsTheInput(b: Bounds, c: Cleaner, now: Time)
    requires c == Cleaner(ListedJobs, b.stage, map[], b.stage, {}, References({}, {}, map[]), b.stage, None)
    requires BoundsOk(b) && now == b.stage + b.listJobs && CLEANUP_INTERVAL < now
      && Reachable(b, Idle(now, map[0 := c]))
    ensures Reachable(b, Idle(now, map[0 := Swept(c, now)]).(inputs := map[]))
  {
    var picked := Swept(c, now).(pending := Some(Input(0)));
    FixesCutoffEarly(b, c, now);
    ReachByCleaner(b, Idle(now, map[0 := Swept(c, now)]), Inspect(Input(0)), Idle(now, map[0 := picked]));
    assert map[0 := 0] - {0} == map[];
    ReachByCleaner(b, Idle(now, map[0 := picked]), Remove(None), Idle(now, map[0 := Swept(c, now)]).(inputs := map[]));
  }

  lemma FixesCutoffEarly(b: Bounds, c: Cleaner, now: Time)
    requires c == Cleaner(ListedJobs, b.stage, map[], b.stage, {}, References({}, {}, map[]), b.stage, None)
    requires BoundsOk(b) && now == b.stage + b.listJobs && Reachable(b, Idle(now, map[0 := c]))
    ensures Reachable(b, Idle(now, map[0 := Swept(c, now)]))
  {
    var listed := c.(phase := ListedOutputs, outputsAt := now);
    var cleared := listed.(phase := Clearing);
    NothingReferenced();
    assert ReferencesOf(map[], now) == References({}, {}, map[]);
    ReachByCleaner(b, Idle(now, map[0 := c]), ListOutputs, Idle(now, map[0 := listed]));
    ReachByCleaner(b, Idle(now, map[0 := listed]), TakeSnapshot, Idle(now, map[0 := cleared]));
    ReachByCleaner(b, Idle(now, map[0 := cleared]), TakeCutoff, Idle(now, map[0 := Swept(c, now)]));
  }

  ghost function StalledSweep(pending: Option<Target>): Cleaner {
    Cleaner(Sweeping, LATE, map[], LATE, {}, References({}, {}, map[]), LATE - CLEANUP_INTERVAL, pending)
  }

  ghost function Resumed(up: Upload): State {
    Uploading(LATE, up, map[0 := StalledSweep(Some(Input(0)))]).(inputs := map[0 := LATE])
  }

  /** A stalled upload resumes writing just after a cleanup has found its file old. */
  lemma ResumesUpload(b: Bounds)
    requires BoundsOk(b) && CLEANUP_INTERVAL < b.idle
    ensures Reachable(b, Resumed(Open(0, LATE, LATE)))
  {
    PicksStalledUpload(b);
    assert map[0 := 0][0 := LATE] == map[0 := LATE];
    Reach(b, Uploading(LATE, Writing(0), map[0 := StalledSweep(Some(Input(0)))]), ByUpload(0, WriteInput),
        Resumed(Writing(0)));
    ReachByUpload(b, Resumed(Writing(0)), StageInput, Resumed(Staged(0, LATE)));
    ReachByUpload(b, Resumed(Staged(0, LATE)), BeginTx, Resumed(Open(0, LATE, LATE)));
  }

  /** It commits, and the cleanup removes the file. */
  lemma ResumedUploadIsLost(b: Bounds) returns (s: State)
    requires BoundsOk(b) && CLEANUP_INTERVAL < b.idle
    ensures Reachable(b, s) && 0 in s.db.jobs && s.db.jobs[0].state.Queued? && s.inputs == map[]
  {
    ResumesUpload(b);
    var begun := Resumed(Open(0, LATE, LATE));
    var queued := begun.(db := EnqueueJob(EMPTY_DB, 0, 0, LATE), uploads := map[]);
    assert begun.uploads - {0} == map[];
    Reach(b, begun, ByUpload(0, Commit(0)), queued);
    s := queued.(inputs := map[], cleaners := map[0 := StalledSweep(None)]);
    assert map[0 := LATE] - {0} == map[];
    ReachByCleaner(b, queued, Remove(None), s);
  }

  lemma PicksStalledUpload(b: Bounds)
    requires BoundsOk(b)
    ensures Reachable(b, Uploading(LATE, Writing(0), map[0 := StalledSweep(Some(Input(0)))]))
  {
    WritesAtOnce(b);
    var c := Cleaner(ListedJobs, LATE, map[], LATE, {}, References({}, {}, map[]), LATE, None);
    var cleared := c.(phase := Clearing);
    var sweeping := c.(phase := Sweeping, cutoff := LATE - CLEANUP_INTERVAL);
    assert OutputPaths(EMPTY_DB.songs) == {} && Referenced({}) == {};
    assert ReferencesOf(map[], LATE) == References({}, {}, map[]);
    Waits(b, Uploading(0, Writing(0), map[]), LATE, Uploading(LATE, Writing(0), map[]));
    ReachByCleaner(b, Uploading(LATE, Writing(0), map[]), ListJobs, Uploading(LATE, Writing(0), map[0 := c]));
    ReachByCleaner(b, Uploading(LATE, Writing(0), map[0 := c]), ListOutputs,
          Uploading(LATE, Writing(0), map[0 := c.(phase := ListedOutputs)]));
    ReachByCleaner(b, Uploading(LATE, Writing(0), map[0 := c.(phase := ListedOutputs)]), TakeSnapshot,
          Uploading(LATE, Writing(0), map[0 := cleared]));
    ReachByCleaner(b, Uploading(LATE, Writing(0), map[0 := cleared]), TakeCutoff,
        Uploading(LATE, Writing(0), map[0 := sweeping]));
    ReachByCleaner(b, Uploading(LATE, Writing(0), map[0 := sweeping]), Inspect(Input(0)),
          Uploading(LATE, Writing(0), map[0 := sweeping.(pending := Some(Input(0)))]));
  }

  ghost predicate InputsIntact(s: State) {
    forall id <- s.db.jobs :: s.db.jobs[id].Live() ==> s.db.jobs[id].input in s.inputs
  }

  /** Live jobs keep their inputs in every timely run exactly when the two delays add up to at most the cleanup
      interval, and the longest pause between two writes of an upload is at most that. */
  lemma InputDelaysAreExact(b: Bounds)
    requires BoundsOk(b)
    ensures (forall s :: Reachable(b, s) ==> InputsIntact(s))
       <==> b.stage + b.listJobs <= CLEANUP_INTERVAL && b.idle <= CLEANUP_INTERVAL
  {
    if KeepsInputs(b) {
      forall s | Reachable(b, s)
        ensures InputsIntact(s)
      {
        var ss, steps :| IsTimelyRun(b, ss, steps) && ss[|ss| - 1] == s;
        forall id | id in s.db.jobs && s.db.jobs[id].Live()
          ensures s.db.jobs[id].input in s.inputs
        {
          LiveInputIsNeverDeleted(b, ss, steps, |ss| - 1, id);
        }
      }
    } else if b.idle <= CLEANUP_INTERVAL {
      var s := LiveInputIsLost(b);
      assert !InputsIntact(s);
    } else {
      var s := ResumedUploadIsLost(b);
      assert !InputsIntact(s);
    }
  }
}
