/**
 The whole system as one state machine: the two tables, the media directories, any number of workers, uploads and
 cleanup passes, and requests whose replies were lost. Every step is one SQL statement, one file-system call or one
 decision, at one clock reading, and any enabled step of any process may come next.
 */
module Protocol {
  import opened Prelude
  import opened SongJobs
  import opened Snapshots

  const CLEANUP_INTERVAL: Time := 3_600_000_000

  // ----- Files -----

  /** work/(song, attempt). The files are sizes by name: what FFmpeg and Demucs made, and what Publish has moved to
      result/. `prepared` and `torn` are history that no step reads: when the directory was made, and whether a cleanup
      has begun to remove it. */
  datatype WorkDir = WorkDir(
    prepared: Time, mtime: Time,
    sources: map<AudioFile, nat>, result: map<AudioFile, nat>, resultMtime: Time, torn: bool)

  /** songs/(song, attempt). */
  datatype OutDir = OutDir(files: map<AudioFile, nat>, mtime: Time)

  const FILES: nat := 5

  /** The order in which Publish moves the files: the clip, then the four stems. */
  function Place(f: AudioFile): nat {
    match f
    case Full => 0
    case Drums => 1
    case Bass => 2
    case Other => 3
    case Vocals => 4
  }

  function FileAt(place: nat): AudioFile
    requires place < FILES
    ensures Place(FileAt(place)) == place
  {
    if place == 0 then Full
    else if place == 1 then Drums
    else if place == 2 then Bass
    else if place == 3 then Other
    else Vocals
  }

  predicate HasAudio(files: map<AudioFile, nat>, f: AudioFile) {
    f in files && 0 < files[f]
  }

  /** All five files are there and none is empty. */
  ghost predicate Whole(files: map<AudioFile, nat>) {
    forall f: AudioFile :: HasAudio(files, f)
  }

  function Keep(m: map<AudioFile, nat>, kept: set<AudioFile>): map<AudioFile, nat> {
    map f <- m | f in kept :: m[f]
  }

  // ----- Processes -----

  datatype Upload =
    | Writing(name: InputName)
    | Staged(name: InputName, written: Time)
    | Open(name: InputName, written: Time, begun: Time)

  datatype Stage =
    | Fresh
    | Working(clipOk: bool)
    | Publishing(moved: nat)
    | Returned(published: Option<Time>)
    | Discarding(hasOutput: bool, recordNext: bool)
    | Recording
    | Completing(filled: Time)

  /** A worker between jobs, with the inputs it still has to remove, or one that holds an attempt. `prepared` is
      history, read only by Timely: when it made the attempt's work directory, or claimed the attempt if it has made
      none yet. */
  datatype Worker =
    | Free(toRemove: set<InputName>)
    | Holding(
        job: Attempt, input: InputName, prepared: Time, stage: Stage,
        renewFailed: bool, cancelled: bool, timedOut: bool)

  datatype Target = Input(name: InputName) | Work(attempt: Attempt) | Output(attempt: Attempt)

  datatype Phase = ListedJobs | ListedOutputs | Clearing | Sweeping

  /** One pass of CleanupMedia. Fields of later phases hold nothing meaningful before them. */
  datatype Cleaner = Cleaner(
    phase: Phase,
    jobsAt: Time,
    rows: map<SongId, Job>,
    outputsAt: Time,
    referenced: set<Attempt>,
    refs: References,
    cutoff: Time,
    pending: Option<Target>)

  /** A request whose sender got no reply. The database may execute it at any later moment, or never. */
  datatype Request =
    | CommitRequest(id: SongId, name: InputName, written: Time, begun: Time)
    | CompleteRequest(attempt: Attempt, filled: Time)
    | RecordRequest(attempt: Attempt)
    | RenewRequest(attempt: Attempt)

  datatype State = State(
    now: Time,
    db: Db,
    inputs: map<InputName, Time>,
    usedNames: set<InputName>,
    work: map<Attempt, WorkDir>,
    songs: map<Attempt, OutDir>,
    uploads: map<nat, Upload>,
    workers: map<nat, Worker>,
    cleaners: map<nat, Cleaner>,
    inFlight: set<Request>)

  predicate IsInitial(s: State) {
    s == State(s.now, EMPTY_DB, map[], {}, map[], map[], map[], map[], map[], {})
  }

  function WorkerOf(s: State, w: nat): Worker {
    if w in s.workers then s.workers[w] else Free({})
  }

  // ----- Steps -----

  datatype UploadAction =
    | CreateInput(name: InputName)
    | WriteInput
    | StageInput
    | BeginTx
    | Drop(removed: bool)
    | Commit(id: SongId)
    | LoseCommit(id: SongId)

  datatype WorkerAction =
    | ExpireJobs
    | ReapInput(name: InputName, removed: bool)
    | ClaimJob(id: SongId)
    | Prepare
    | Produce(file: AudioFile, size: nat)
    | CheckClip
    | StartPublish
    | MoveFile
    | PublishFinal(cleaned: bool)
    | ProcessFails(cleaned: bool)
    | RenewLease
    | LoseRenewal(recorded: bool)
    | PassDeadline
    | CancelWork
    | Decide
    | Discard(left: Option<set<AudioFile>>)
    | FinishDiscard
    | SendRecord
    | LoseRecord
    | SendComplete
    | LoseComplete
    | Crash

  datatype CleanerAction =
    | ListJobs
    | ListOutputs
    | TakeSnapshot
    | ReapTerminal(name: InputName, removed: bool)
    | TakeCutoff
    | Inspect(target: Target)
    | Remove(left: Option<set<AudioFile>>)
    | End

  datatype Step =
    | Tick(elapsed: nat)
    | ByUpload(u: nat, up: UploadAction)
    | ByWorker(w: nat, wk: WorkerAction)
    | ByCleaner(c: nat, cl: CleanerAction)
    | Deliver(request: Request)
    | Unheard(statement: Statement)

  ghost predicate Can(s: State, step: Step) {
    match step
    case Tick(_) => true
    case ByUpload(u, a) => CanUpload(s, u, a)
    case ByWorker(w, a) => CanWorker(s, w, a)
    case ByCleaner(c, a) => CanClean(s, c, a)
    case Deliver(r) => r in s.inFlight && (r.CommitRequest? ==> r.id !in s.db.jobs)
    case Unheard(st) => (st.Claim? || st.Expire?) && CanExec(s.db, s.now, st)
  }

  /** The statement a step has the database execute, if any. */
  ghost function Query(s: State, step: Step): Option<Statement>
    requires Can(s, step)
  {
    match step
    case ByUpload(u, Commit(id)) => Some(Enqueue(id, s.uploads[u].name, s.uploads[u].begun))
    case ByWorker(w, a) =>
      (match a
       case ExpireJobs => Some(Expire)
       case ClaimJob(id) => Some(Claim(id))
       case RenewLease => Some(Renew(WorkerOf(s, w).job))
       case SendRecord => Some(Record(WorkerOf(s, w).job))
       case SendComplete => Some(Complete(WorkerOf(s, w).job))
       case _ => None)
    case Deliver(r) => Some(StatementOf(r))
    case Unheard(st) => Some(st)
    case _ => None
  }

  ghost function DbAfter(s: State, step: Step): Db
    requires Can(s, step)
  {
    var query := Query(s, step);
    if query.None? then s.db else Exec(s.db, s.now, query.value)
  }

  /** The step's effect on everything but the tables. */
  ghost function Local(s: State, step: Step): State
    requires Can(s, step)
  {
    match step
    case Tick(elapsed) => s.(now := s.now + elapsed)
    case ByUpload(u, a) => DoUpload(s, u, a)
    case ByWorker(w, a) => DoWorker(s, w, a)
    case ByCleaner(c, a) => DoClean(s, c, a)
    case _ => s
  }

  ghost function Do(s: State, step: Step): State
    requires Can(s, step)
  {
    Local(s, step).(db := DbAfter(s, step))
  }

  function StatementOf(r: Request): Statement {
    match r
    case CommitRequest(id, name, _, begun) => Enqueue(id, name, begun)
    case CompleteRequest(a, _) => Complete(a)
    case RecordRequest(a) => Record(a)
    case RenewRequest(a) => Renew(a)
  }

  // ----- Uploads: receiveSongUpload, then persistSongUploadWithBegin -----

  /** gen_random_uuid: an id that no row has and no transaction in flight has drawn. */
  ghost predicate FreshId(s: State, id: SongId) {
    id !in s.db.jobs && forall r <- s.inFlight :: r.CommitRequest? ==> r.id != id
  }

  ghost predicate CanUpload(s: State, u: nat, a: UploadAction) {
    match a
    case CreateInput(name) => u !in s.uploads && name !in s.usedNames
    case WriteInput => u in s.uploads && s.uploads[u].Writing?
    case StageInput => u in s.uploads && s.uploads[u].Writing? && s.uploads[u].name in s.inputs
    case BeginTx => u in s.uploads && s.uploads[u].Staged?
    case Drop(_) => u in s.uploads
    case Commit(id) => u in s.uploads && s.uploads[u].Open? && FreshId(s, id) && s.uploads[u].begun <= s.now
    case LoseCommit(id) => u in s.uploads && s.uploads[u].Open? && FreshId(s, id) && s.uploads[u].begun <= s.now
  }

  function DoUpload(s: State, u: nat, a: UploadAction): (next: State)
    requires !a.CreateInput? ==> u in s.uploads
    requires a.StageInput? ==> s.uploads[u].name in s.inputs
    requires a.BeginTx? ==> s.uploads[u].Staged?
    requires a.Commit? || a.LoseCommit? ==> s.uploads[u].Open?
    ensures next.db == s.db && next.now == s.now
  {
    match a
    case CreateInput(name) =>
      s.(inputs := s.inputs[name := s.now], usedNames := s.usedNames + {name}, uploads := s.uploads[u := Writing(name)])
    case WriteInput =>
      var name := s.uploads[u].name;
      if name in s.inputs then s.(inputs := s.inputs[name := s.now]) else s
    case StageInput =>
      var name := s.uploads[u].name;
      s.(uploads := s.uploads[u := Staged(name, s.inputs[name])])
    case BeginTx =>
      s.(uploads := s.uploads[u := Open(s.uploads[u].name, s.uploads[u].written, s.now)])
    case Drop(removed) =>
      s.(inputs := if removed then s.inputs - {s.uploads[u].name} else s.inputs, uploads := s.uploads - {u})
    case Commit(id) =>
      s.(uploads := s.uploads - {u})
    case LoseCommit(id) =>
      var up := s.uploads[u];
      s.(inFlight := s.inFlight + {CommitRequest(id, up.name, up.written, up.begun)}, uploads := s.uploads - {u})
  }

  // ----- Workers: ProcessOne, process, renewLease, recordFailure, discard; Process, PrepareAttempt and Publish -----

  predicate InProcess(stage: Stage) {
    stage.Fresh? || stage.Working? || stage.Publishing?
  }

  ghost predicate HasStems(d: WorkDir) {
    forall f: AudioFile :: f.Full? || HasAudio(d.sources, f)
  }

  ghost predicate CanWorker(s: State, w: nat, a: WorkerAction) {
    var me := WorkerOf(s, w);
    match a
    case ExpireJobs => me == Free({})
    case ReapInput(name, _) => me.Free? && name in me.toRemove
    case ClaimJob(id) => me == Free({}) && IsCandidate(s.db, s.now, id)
    case Prepare => me.Holding? && me.stage.Fresh?
    case Produce(file, _) => me.Holding? && me.stage.Working? && me.job in s.work && (file.Full? <==> !me.stage.clipOk)
    case CheckClip =>
      me.Holding? && me.stage == Working(false) && me.job in s.work && HasAudio(s.work[me.job].sources, Full)
    case StartPublish => me.Holding? && me.stage == Working(true) && me.job in s.work && HasStems(s.work[me.job])
    case MoveFile =>
      me.Holding? && me.stage.Publishing? && me.stage.moved < FILES
      && me.job in s.work && FileAt(me.stage.moved) in s.work[me.job].sources
    case PublishFinal(_) => me.Holding? && me.stage == Publishing(FILES) && me.job in s.work && me.job !in s.songs
    case ProcessFails(_) => me.Holding? && InProcess(me.stage)
    case RenewLease => me.Holding? && InProcess(me.stage) && !me.renewFailed && !me.cancelled && !me.timedOut
    case LoseRenewal(recorded) =>
      me.Holding? && InProcess(me.stage) && !me.renewFailed && (recorded ==> !me.cancelled && !me.timedOut)
    case PassDeadline => me.Holding? && InProcess(me.stage)
    case CancelWork => me.Holding? && (InProcess(me.stage) || me.stage.Returned?)
    case Decide => me.Holding? && me.stage.Returned?
    case Discard(_) => me.Holding? && me.stage.Discarding? && me.stage.hasOutput
    case FinishDiscard => me.Holding? && me.stage.Discarding?
    case SendRecord => me.Holding? && me.stage.Recording?
    case LoseRecord => me.Holding? && me.stage.Recording?
    case SendComplete => me.Holding? && me.stage.Completing?
    case LoseComplete => me.Holding? && me.stage.Completing?
    case Crash => true
  }

  /** process, after Process has returned and the renewer has stopped: renewal error, shutdown, deadline, error,
      success, in this order. */
  function Decision(me: Worker): Worker
    requires me.Holding? && me.stage.Returned?
  {
    var has := me.stage.published.Some?;
    if me.renewFailed || me.cancelled then me.(stage := Discarding(has, false))
    else if me.timedOut then me.(stage := Discarding(has, true))
    else if !has then me.(stage := Recording)
    else me.(stage := Completing(me.stage.published.value))
  }

  function ExpiredInputs(db: Db, now: Time): set<InputName> {
    set id <- db.jobs | db.jobs[id].Expired(now) :: db.jobs[id].input
  }

  /** What RemoveAll leaves of a directory it has not finished removing. */
  function TearOutput(songs: map<Attempt, OutDir>, a: Attempt, left: Option<set<AudioFile>>,
      now: Time): map<Attempt, OutDir>
  {
    if a !in songs then songs
    else if left.None? then songs - {a}
    else songs[a := OutDir(Keep(songs[a].files, left.value), now)]
  }

  function TearWork(work: map<Attempt, WorkDir>, a: Attempt, left: Option<set<AudioFile>>,
      now: Time): map<Attempt, WorkDir>
  {
    if a !in work then work
    else if left.None? then work - {a}
    else
      var d := work[a];
      work[a := d.(sources := Keep(d.sources, left.value), result := Keep(d.result, left.value), mtime := now,
          torn := true)]
  }

  /** Where the action leaves the worker itself. */
  ghost function WorkerAfter(s: State, w: nat, a: WorkerAction): Worker
    requires CanWorker(s, w, a)
  {
    var me := WorkerOf(s, w);
    match a
    case ExpireJobs => Free(ExpiredInputs(s.db, s.now))
    case ReapInput(name, _) => Free(me.toRemove - {name})
    case ClaimJob(id) =>
      Holding(Attempt(id, s.db.jobs[id].attemptCount + 1), s.db.jobs[id].input, s.now, Fresh, false, false, false)
    case Prepare => me.(stage := Working(false), prepared := s.now)
    case Produce(_, _) => me
    case CheckClip => me.(stage := Working(true))
    case StartPublish => me.(stage := Publishing(0))
    case MoveFile => me.(stage := Publishing(me.stage.moved + 1))
    case PublishFinal(_) => me.(stage := Returned(Some(s.work[me.job].resultMtime)))
    case ProcessFails(_) => me.(stage := Returned(None))
    case RenewLease => me.(renewFailed := !(Current(s.db, me.job) && s.db.jobs[me.job.song].Leased(s.now)))
    case LoseRenewal(recorded) => me.(renewFailed := recorded)
    case PassDeadline => me.(timedOut := true)
    case CancelWork => me.(cancelled := true)
    case Decide => Decision(me)
    case Discard(_) => me
    case FinishDiscard => if me.stage.recordNext then me.(stage := Recording) else Free({})
    case SendRecord => Free(if Current(s.db, me.job) && MAX_ATTEMPTS <= me.job.number then {me.input} else {})
    case LoseRecord => Free({})
    case SendComplete => if Current(s.db, me.job) then Free({me.input}) else me.(stage := Discarding(true, false))
    case LoseComplete => Free({})
    case Crash => Free({})
  }

  /** The request the action leaves without a reply. */
  ghost function Lost(s: State, w: nat, a: WorkerAction): set<Request>
    requires CanWorker(s, w, a)
  {
    var me := WorkerOf(s, w);
    match a
    case LoseRenewal(_) => {RenewRequest(me.job)}
    case LoseRecord => {RecordRequest(me.job)}
    case LoseComplete => {CompleteRequest(me.job, me.stage.filled)}
    case _ => {}
  }

  ghost function WorkAfter(s: State, w: nat, a: WorkerAction): map<Attempt, WorkDir>
    requires CanWorker(s, w, a)
  {
    var me := WorkerOf(s, w);
    match a
    case Prepare =>
      s.work[me.job := if me.job in s.work then s.work[me.job].(mtime := s.now)
          else WorkDir(s.now, s.now, map[], map[], s.now, false)]
    case Produce(file, size) =>
      // A stem lies deeper in the tree; leaving the directory's mtime alone only makes cleanup more eager.
      var d := s.work[me.job];
      s.work[me.job := d.(sources := d.sources[file := size], mtime := if file.Full? then s.now else d.mtime)]
    case MoveFile =>
      var d, f := s.work[me.job], FileAt(me.stage.moved);
      s.work[me.job := d.(sources := d.sources - {f}, result := d.result[f := d.sources[f]], resultMtime := s.now,
                          mtime := if f.Full? then s.now else d.mtime)]
    case PublishFinal(cleaned) =>
      if cleaned then s.work - {me.job} else s.work[me.job := s.work[me.job].(result := map[], mtime := s.now)]
    case ProcessFails(cleaned) => if cleaned then s.work - {me.job} else s.work
    case _ => s.work
  }

  ghost function SongsAfter(s: State, w: nat, a: WorkerAction): map<Attempt, OutDir>
    requires CanWorker(s, w, a)
  {
    var me := WorkerOf(s, w);
    match a
    case PublishFinal(_) => s.songs[me.job := OutDir(s.work[me.job].result, s.work[me.job].resultMtime)]
    case Discard(left) => TearOutput(s.songs, me.job, left, s.now)
    case _ => s.songs
  }

  ghost function DoWorker(s: State, w: nat, a: WorkerAction): (next: State)
    requires CanWorker(s, w, a)
    ensures next.db == s.db && next.now == s.now
  {
    s.(workers := s.workers[w := WorkerAfter(s, w, a)],
       inFlight := s.inFlight + Lost(s, w, a),
       work := WorkAfter(s, w, a),
       songs := SongsAfter(s, w, a),
       inputs := match a case ReapInput(name, true) => s.inputs - {name} case _ => s.inputs)
  }

  // ----- Cleanup: mediaSnapshot, then the terminal inputs, then Store.Cleanup -----

  predicate Exists(s: State, t: Target) {
    match t
    case Input(name) => name in s.inputs
    case Work(a) => a in s.work
    case Output(a) => a in s.songs
  }

  function Mtime(s: State, t: Target): Time
    requires Exists(s, t)
  {
    match t
    case Input(name) => s.inputs[name]
    case Work(a) => s.work[a].mtime
    case Output(a) => s.songs[a].mtime
  }

  predicate Protected(c: Cleaner, t: Target) {
    match t
    case Input(name) => name in c.refs.inputs
    case Work(a) => IsActive(c.refs.active, a)
    case Output(a) => IsActive(c.refs.active, a) || a in c.referenced
  }

  predicate CanClean(s: State, c: nat, a: CleanerAction) {
    if a.ListJobs? then c !in s.cleaners
    else
      c in s.cleaners
      && var me := s.cleaners[c];
         match a
         case ListOutputs => me.phase.ListedJobs?
         case TakeSnapshot => me.phase.ListedOutputs?
         case ReapTerminal(name, _) => me.phase.Clearing? && name in me.refs.terminalInputs
         case TakeCutoff => me.phase.Clearing? && me.refs.terminalInputs == {}
         case Inspect(t) =>
           me.phase.Sweeping? && me.pending.None? && Exists(s, t) && !Protected(me, t) && Mtime(s, t) < me.cutoff
         case Remove(left) => me.phase.Sweeping? && me.pending.Some? && (left.Some? ==> !me.pending.value.Input?)
         case _ => true
  }

  /** Where the action leaves the cleanup itself. */
  function CleanerAfter(s: State, c: nat, a: CleanerAction): Cleaner
    requires CanClean(s, c, a) && !a.End?
  {
    if a.ListJobs? then Cleaner(ListedJobs, s.now, s.db.jobs, s.now, {}, References({}, {}, map[]), s.now, None)
    else
      var me := s.cleaners[c];
      match a
      case ListOutputs => me.(phase := ListedOutputs, outputsAt := s.now,
          referenced := Referenced(OutputPaths(s.db.songs)))
      case TakeSnapshot => me.(phase := Clearing, refs := ReferencesOf(me.rows, s.now))
      case ReapTerminal(name, _) => me.(refs := me.refs.(terminalInputs := me.refs.terminalInputs - {name}))
      case TakeCutoff => me.(phase := Sweeping, cutoff := s.now - CLEANUP_INTERVAL)
      case Inspect(t) => me.(pending := Some(t))
      case Remove(left) => me.(pending := if left.None? then None else me.pending)
  }

  /** What the action removes, or begins to remove. */
  function Taken(s: State, c: nat, a: CleanerAction): Option<Target>
    requires CanClean(s, c, a)
  {
    match a
    case ReapTerminal(name, true) => Some(Input(name))
    case Remove(_) => s.cleaners[c].pending
    case _ => None
  }

  function Leaves(a: CleanerAction): Option<set<AudioFile>> {
    if a.Remove? then a.left else None
  }

  function DoClean(s: State, c: nat, a: CleanerAction): (next: State)
    requires CanClean(s, c, a)
    ensures next.db == s.db && next.now == s.now
  {
    s.(cleaners := if a.End? then s.cleaners - {c} else s.cleaners[c := CleanerAfter(s, c, a)],
       inputs := match Taken(s, c, a) case Some(Input(name)) => s.inputs - {name} case _ => s.inputs,
       work := match Taken(s, c, a) case Some(Work(x)) => TearWork(s.work, x, Leaves(a), s.now) case _ => s.work,
       songs := match Taken(s, c, a) case Some(Output(x)) => TearOutput(s.songs, x, Leaves(a), s.now) case _ => s.songs)
  }

  // ----- The delays the guarantees depend on -----

  /** The longest delays:
      `idle`, between two writes of an upload to its file;
      `stage`, from the last write of an upload to its commit;
      `attempt`, from making an attempt's work directory to the moment a worker that goes on to complete finds its
      deadline not passed: at most the attempt timeout, since the deadline is set before the directory is made;
      `publish`, from the last file moved in to the applied complete;
      `listJobs` and `listOutputs`, from each of cleanup's queries to the moment it fixes its cutoff. */
  datatype Bounds = Bounds(idle: Time, stage: Time, attempt: Time, publish: Time, listJobs: Time, listOutputs: Time)

  ghost predicate NotPending(s: State, c: nat, t: Target) {
    c in s.cleaners ==> s.cleaners[c].pending != Some(t)
  }

  /** No cleanup has picked the target for removal. */
  ghost predicate Unthreatened(s: State, t: Target) {
    forall c :: NotPending(s, c, t)
  }

  /** The step respects the delays. */
  ghost predicate Timely(b: Bounds, s: State, step: Step)
    requires Can(s, step)
  {
    match step
    case ByUpload(u, WriteInput) =>
      var name := s.uploads[u].name;
      name in s.inputs ==> s.now <= s.inputs[name] + b.idle
    case ByUpload(u, Commit(_)) => s.now <= s.uploads[u].written + b.stage
    case Deliver(CommitRequest(_, _, written, _)) => s.now <= written + b.stage
    case ByWorker(w, Decide) => Decision(WorkerOf(s, w)).stage.Completing? ==>
        s.now <= WorkerOf(s, w).prepared + b.attempt
    case ByWorker(w, SendComplete) => s.now <= WorkerOf(s, w).stage.filled + b.publish
    case Deliver(CompleteRequest(a, filled)) => Current(s.db, a) ==> s.now <= filled + b.publish
    case ByCleaner(c, TakeCutoff) => s.now <= s.cleaners[c].jobsAt + b.listJobs
        && s.now <= s.cleaners[c].outputsAt + b.listOutputs
    case _ => true
  }

  // ----- Runs -----

  ghost predicate FollowsAt(ss: seq<State>, steps: seq<Step>, i: int)
    requires |ss| == |steps| + 1
  {
    0 <= i < |steps| ==> Can(ss[i], steps[i]) && ss[i + 1] == Do(ss[i], steps[i])
  }

  ghost predicate IsRun(ss: seq<State>, steps: seq<Step>) {
    |ss| == |steps| + 1 && IsInitial(ss[0]) && forall i :: FollowsAt(ss, steps, i)
  }

  ghost predicate TimelyAt(b: Bounds, ss: seq<State>, steps: seq<Step>, i: int)
    requires |ss| == |steps| + 1
  {
    0 <= i < |steps| && Can(ss[i], steps[i]) ==> Timely(b, ss[i], steps[i])
  }

  ghost predicate IsTimelyRun(b: Bounds, ss: seq<State>, steps: seq<Step>) {
    IsRun(ss, steps) && forall i :: TimelyAt(b, ss, steps, i)
  }
}
