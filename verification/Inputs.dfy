/** Live jobs never lose their input. */
module Inputs {
  import opened Prelude
  import opened SongJobs
  import opened Snapshots
  import opened Protocol
  import opened Holders
  import opened Cleaners

  // ----- Who owns a file name -----

  ghost predicate UploadUsed(s: State, u: nat) {
    u in s.uploads ==> s.uploads[u].name in s.usedNames
  }

  ghost predicate JobUsed(s: State, id: SongId) {
    id in s.db.jobs ==> s.db.jobs[id].input in s.usedNames
  }

  ghost predicate RequestUsed(s: State, r: Request) {
    r in s.inFlight && r.CommitRequest? ==> r.name in s.usedNames
  }

  ghost predicate FileUsed(s: State, name: InputName) {
    name in s.inputs ==> name in s.usedNames
  }

  ghost predicate TargetUsed(s: State, c: nat) {
    c in s.cleaners && s.cleaners[c].pending.Some? && s.cleaners[c].pending.value.Input? ==>
      s.cleaners[c].pending.value.name in s.usedNames
  }

  ghost predicate UploadsDiffer(s: State, u: nat, v: nat) {
    u in s.uploads && v in s.uploads && u != v ==> s.uploads[u].name != s.uploads[v].name
  }

  ghost predicate UploadOwns(s: State, u: nat, id: SongId) {
    u in s.uploads && id in s.db.jobs ==> s.uploads[u].name != s.db.jobs[id].input
  }

  ghost predicate UploadSole(s: State, u: nat, r: Request) {
    u in s.uploads && r in s.inFlight && r.CommitRequest? ==> s.uploads[u].name != r.name
  }

  /** A commit in flight and a job agree on the id exactly when they agree on the file. */
  ghost predicate CommitOwns(s: State, r: Request, id: SongId) {
    r in s.inFlight && r.CommitRequest? && id in s.db.jobs ==> (r.id == id <==> r.name == s.db.jobs[id].input)
  }

  ghost predicate CommitsDiffer(s: State, q: Request, r: Request) {
    q in s.inFlight && r in s.inFlight && q.CommitRequest? && r.CommitRequest? && (q.id == r.id || q.name == r.name) ==>
      q == r
  }

  ghost predicate JobsDiffer(s: State, i: SongId, j: SongId) {
    i in s.db.jobs && j in s.db.jobs && i != j ==> s.db.jobs[i].input != s.db.jobs[j].input
  }

  ghost predicate Names(s: State) {
    && (forall u :: UploadUsed(s, u))
    && (forall id :: JobUsed(s, id))
    && (forall r :: RequestUsed(s, r))
    && (forall name :: FileUsed(s, name))
    && (forall c :: TargetUsed(s, c))
    && (forall u, v :: UploadsDiffer(s, u, v))
    && (forall u, id :: UploadOwns(s, u, id))
    && (forall u, r :: UploadSole(s, u, r))
    && (forall r, id :: CommitOwns(s, r, id))
    && (forall q, r :: CommitsDiffer(s, q, r))
    && (forall i, j :: JobsDiffer(s, i, j))
  }

  // ----- What may be removed -----

  /** The input of a job that has finished. */
  ghost predicate Disposable(db: Db, name: InputName) {
    exists id :: id in db.jobs && !db.jobs[id].Live() && db.jobs[id].input == name
  }

  ghost predicate WorkerReaps(s: State, w: nat, name: InputName) {
    WorkerOf(s, w).Free? && name in WorkerOf(s, w).toRemove ==> Disposable(s.db, name)
  }

  ghost predicate CleanerReaps(s: State, c: nat, name: InputName) {
    c in s.cleaners && name in s.cleaners[c].refs.terminalInputs ==> Disposable(s.db, name)
  }

  /** The rows a cleanup copied are an earlier state of the table. */
  ghost predicate RowPast(s: State, c: nat, id: SongId) {
    c in s.cleaners && id in s.cleaners[c].rows ==>
      && id in s.db.jobs && s.db.jobs[id].input == s.cleaners[c].rows[id].input
      && (!s.cleaners[c].rows[id].Live() ==> !s.db.jobs[id].Live())
  }

  // ----- What must be kept -----

  ghost predicate StagedSafe(s: State, name: InputName, written: Time) {
    s.now <= written + CLEANUP_INTERVAL ==>
      name in s.inputs && s.inputs[name] == written && Unthreatened(s, Input(name))
  }

  ghost predicate UploadSafe(s: State, u: nat) {
    && (u in s.uploads && !s.uploads[u].Writing? ==> StagedSafe(s, s.uploads[u].name, s.uploads[u].written))
    && (u in s.uploads && s.uploads[u].Writing? && s.uploads[u].name in s.inputs ==>
          s.now <= s.inputs[s.uploads[u].name] + CLEANUP_INTERVAL ==> Unthreatened(s, Input(s.uploads[u].name)))
  }

  ghost predicate CommitSafe(s: State, r: Request) {
    r in s.inFlight && r.CommitRequest? && r.id !in s.db.jobs ==> StagedSafe(s, r.name, r.written)
  }

  /** A cleanup either copied the live job's row and so needs its input, or did so too soon to count the file as old. */
  ghost predicate Needs(b: Bounds, s: State, c: nat, id: SongId) {
    c in s.cleaners && id in s.db.jobs && s.db.jobs[id].Live() && s.db.jobs[id].input in s.inputs ==>
      var me := s.cleaners[c];
      || me.jobsAt <= s.inputs[s.db.jobs[id].input] + b.stage
      || (if me.phase.ListedJobs? || me.phase.ListedOutputs? then id in me.rows
          else s.db.jobs[id].input in me.refs.inputs)
  }

  ghost predicate InputKept(s: State, id: SongId) {
    id in s.db.jobs && s.db.jobs[id].Live() ==>
      s.db.jobs[id].input in s.inputs && Unthreatened(s, Input(s.db.jobs[id].input))
  }

  ghost predicate In(b: Bounds, s: State) {
    && Names(s)
    && (forall w, name :: WorkerReaps(s, w, name))
    && (forall c, name :: CleanerReaps(s, c, name))
    && (forall c, id :: RowPast(s, c, id))
    && (forall u :: UploadSafe(s, u))
    && (forall r :: CommitSafe(s, r))
    && (forall c, id :: Needs(b, s, c, id))
    && (forall id :: InputKept(s, id))
    && (forall c :: CleanerOk(b, s, c))
  }

  // ----- What one step does to files, uploads, commits and rows -----

  ghost predicate FileMoves(s: State, step: Step, next: State, name: InputName) {
    || ((name in next.inputs <==> name in s.inputs) && (name in s.inputs ==> next.inputs[name] == s.inputs[name]))
    || (step.ByUpload? && step.u in s.uploads && s.uploads[step.u].name == name
        && (step.up.Drop? || (step.up.WriteInput? && s.uploads[step.u].Writing? && name in s.inputs
            && name in next.inputs && next.inputs[name] == s.now)))
    || (step.ByUpload? && step.up == CreateInput(name) && name !in s.usedNames && name in next.usedNames
        && name in next.inputs
        && next.inputs[name] == s.now)
    || (name !in next.inputs && step.ByWorker? && WorkerOf(s, step.w).Free? && name in WorkerOf(s, step.w).toRemove)
    || (name !in next.inputs && step.ByCleaner? && step.c in s.cleaners
        && (name in s.cleaners[step.c].refs.terminalInputs || s.cleaners[step.c].pending == Some(Input(name))))
  }

  lemma StepFiles(s: State, step: Step, name: InputName)
    requires Can(s, step)
    ensures FileMoves(s, step, Local(s, step), name)
  {
  }

  ghost predicate UploadMoves(s: State, step: Step, next: State, u: nat) {
    u in next.uploads ==>
      if step.ByUpload? && step.u == u then
        match step.up
        case CreateInput(name) => next.uploads[u] == Writing(name) && name !in s.usedNames && name in next.usedNames
        case WriteInput => u in s.uploads && next.uploads[u] == s.uploads[u]
        case StageInput =>
          u in s.uploads && s.uploads[u].Writing? && s.uploads[u].name in s.inputs
          && next.uploads[u] == Staged(s.uploads[u].name, s.inputs[s.uploads[u].name])
        case BeginTx =>
          u in s.uploads && s.uploads[u].Staged? && next.uploads[u].Open?
          && next.uploads[u].name == s.uploads[u].name && next.uploads[u].written == s.uploads[u].written
        case _ => false
      else u in s.uploads && next.uploads[u] == s.uploads[u]
  }

  lemma StepUploads(s: State, step: Step, u: nat)
    requires Can(s, step)
    ensures UploadMoves(s, step, Local(s, step), u)
  {
  }

  /** A commit enters the wire from an open transaction that ends there. */
  ghost predicate CommitMoves(s: State, step: Step, next: State, r: Request) {
    r in next.inFlight && r.CommitRequest? && r !in s.inFlight ==>
      && step.ByUpload? && step.up == LoseCommit(r.id) && step.u in s.uploads && step.u !in next.uploads
      && s.uploads[step.u] == Open(r.name, r.written, r.begun) && FreshId(s, r.id)
  }

  lemma StepCommits(s: State, step: Step, r: Request)
    requires Can(s, step)
    ensures CommitMoves(s, step, Local(s, step), r)
    ensures r in s.inFlight ==> r in Local(s, step).inFlight
  {
  }

  /** The inputs a worker sets out to remove belong to jobs that its own statement has just finished. */
  ghost predicate ReapMoves(s: State, step: Step, next: State, w: nat, name: InputName) {
    WorkerOf(next, w).Free? && name in WorkerOf(next, w).toRemove ==>
      (WorkerOf(s, w).Free? && name in WorkerOf(s, w).toRemove) || Disposable(next.db, name)
  }

  lemma StepReaps(s: State, step: Step, w: nat, name: InputName)
    requires Can(s, step) && Hold(s)
    ensures ReapMoves(s, step, Do(s, step), w, name)
  {
    StepMoves(s, step, w);
    assert WorkerOf(Do(s, step), w) == WorkerOf(Local(s, step), w);
    if step.ByWorker? && step.w == w {
      assert HolderOk(s, w);
      if WorkerAfter(s, w, step.wk).Free? && name in WorkerAfter(s, w, step.wk).toRemove {
        FinishedInputs(s, w, step.wk, name);
      }
    }
  }

  lemma FinishedInputs(s: State, w: nat, a: WorkerAction, name: InputName)
    requires CanWorker(s, w, a) && Hold(s) && HolderOk(s, w)
    requires WorkerAfter(s, w, a).Free? && name in WorkerAfter(s, w, a).toRemove
    ensures (WorkerOf(s, w).Free? && name in WorkerOf(s, w).toRemove) || Disposable(DbAfter(s, ByWorker(w, a)), name)
  {
    var next := DbAfter(s, ByWorker(w, a));
    if a.ExpireJobs? {
      var id :| id in s.db.jobs && s.db.jobs[id].Expired(s.now) && s.db.jobs[id].input == name;
      ExecActsByRow(s.db, s.now, Expire, id);
      assert !next.jobs[id].Live();
    } else if a.SendRecord? || a.SendComplete? {
      var me := WorkerOf(s, w);
      ExecActsByRow(s.db, s.now, if a.SendRecord? then Record(me.job) else Complete(me.job), me.job.song);
      assert !next.jobs[me.job.song].Live();
    }
  }

  ghost predicate InSteps(s: State, step: Step, next: State)
    requires Can(s, step)
  {
    && Steps(s, step, next)
    && s.usedNames <= next.usedNames
    && (next.now == s.now || step.Tick?)
    && (forall name :: FileMoves(s, step, next, name))
    && (forall u :: UploadMoves(s, step, next, u))
    && (forall r :: CommitMoves(s, step, next, r))
    && (forall c :: CleanerMoves(s, step, next, c))
    && (forall w, name :: ReapMoves(s, step, next, w, name))
  }

  lemma StepInSteps(s: State, step: Step)
    requires Can(s, step) && Hold(s)
    ensures InSteps(s, step, Do(s, step))
  {
    StepSteps(s, step);
    forall name {
      DoFiles(s, step, name);
    }
    forall u {
      DoUploads(s, step, u);
    }
    forall r {
      DoCommits(s, step, r);
    }
    forall c {
      DoCleaners(s, step, c);
    }
    forall w, name {
      StepReaps(s, step, w, name);
    }
    NamesGrow(s, step);
  }

  lemma DoFiles(s: State, step: Step, name: InputName)
    requires Can(s, step)
    ensures FileMoves(s, step, Do(s, step), name)
  {
    StepFiles(s, step, name);
  }

  lemma DoUploads(s: State, step: Step, u: nat)
    requires Can(s, step)
    ensures UploadMoves(s, step, Do(s, step), u)
  {
    StepUploads(s, step, u);
  }

  lemma DoCommits(s: State, step: Step, r: Request)
    requires Can(s, step)
    ensures CommitMoves(s, step, Do(s, step), r)
  {
    StepCommits(s, step, r);
  }

  lemma DoCleaners(s: State, step: Step, c: nat)
    requires Can(s, step)
    ensures CleanerMoves(s, step, Do(s, step), c)
  {
    StepCleaners(s, step, c);
  }

  lemma NamesGrow(s: State, step: Step)
    requires Can(s, step)
    ensures s.usedNames <= Do(s, step).usedNames && (Do(s, step).now == s.now || step.Tick?)
  {
    match step
    case Tick(_) =>
    case ByUpload(u, a) => UploadTouches(s, u, a);
    case ByCleaner(c, a) => CleanerTouches(s, c, a);
    case ByWorker(_, _) =>
    case Deliver(_) =>
    case Unheard(_) =>
  }

  // ----- Names stay apart -----

  lemma UploadUsedKept(s: State, step: Step, next: State, u: nat)
    requires Can(s, step) && InSteps(s, step, next) && Names(s)
    ensures UploadUsed(next, u)
  {
    assert UploadMoves(s, step, next, u) && UploadUsed(s, u);
  }

  lemma JobUsedKept(s: State, step: Step, next: State, id: SongId)
    requires Can(s, step) && InSteps(s, step, next) && Names(s)
    ensures JobUsed(next, id)
  {
    assert JobUsed(s, id) && AddedBy(s.db, next.db, Query(s, step), id);
    if step.ByUpload? {
      assert UploadUsed(s, step.u);
    } else if step.Deliver? {
      assert RequestUsed(s, step.request);
    }
  }

  lemma RequestUsedKept(s: State, step: Step, next: State, r: Request)
    requires Can(s, step) && InSteps(s, step, next) && Names(s)
    ensures RequestUsed(next, r)
  {
    assert CommitMoves(s, step, next, r) && RequestUsed(s, r);
    if step.ByUpload? {
      assert UploadUsed(s, step.u);
    }
  }

  lemma FileUsedKept(s: State, step: Step, next: State, name: InputName)
    requires Can(s, step) && InSteps(s, step, next) && Names(s)
    ensures FileUsed(next, name)
  {
    assert FileMoves(s, step, next, name) && FileUsed(s, name);
    if step.ByUpload? {
      assert UploadUsed(s, step.u);
    }
  }

  lemma TargetUsedKept(s: State, step: Step, next: State, c: nat)
    requires Can(s, step) && InSteps(s, step, next) && Names(s)
    ensures TargetUsed(next, c)
  {
    assert CleanerMoves(s, step, next, c) && TargetUsed(s, c);
    if step.ByCleaner? && step.cl.Inspect? && step.cl.target.Input? {
      assert FileUsed(s, step.cl.target.name);
    }
  }

  lemma UploadsKept(s: State, step: Step, next: State, u: nat, v: nat)
    requires Can(s, step) && InSteps(s, step, next) && Names(s)
    ensures UploadsDiffer(next, u, v)
  {
    assert UploadMoves(s, step, next, u) && UploadMoves(s, step, next, v);
    assert UploadsDiffer(s, u, v) && UploadUsed(s, u) && UploadUsed(s, v);
  }

  lemma UploadOwnsKept(s: State, step: Step, next: State, u: nat, id: SongId)
    requires Can(s, step) && InSteps(s, step, next) && Names(s)
    ensures UploadOwns(next, u, id)
  {
    assert UploadMoves(s, step, next, u) && AddedBy(s.db, next.db, Query(s, step), id);
    assert UploadOwns(s, u, id) && JobUsed(s, id);
    if step.ByUpload? {
      assert UploadsDiffer(s, u, step.u);
    } else if step.Deliver? {
      assert UploadSole(s, u, step.request);
    }
  }

  lemma UploadSoleKept(s: State, step: Step, next: State, u: nat, r: Request)
    requires Can(s, step) && InSteps(s, step, next) && Names(s)
    ensures UploadSole(next, u, r)
  {
    assert UploadMoves(s, step, next, u) && CommitMoves(s, step, next, r);
    assert UploadSole(s, u, r) && RequestUsed(s, r);
    if step.ByUpload? {
      assert UploadsDiffer(s, u, step.u);
    }
  }

  lemma CommitOwnsKept(s: State, step: Step, next: State, r: Request, id: SongId)
    requires Can(s, step) && InSteps(s, step, next) && Names(s)
    ensures CommitOwns(next, r, id)
  {
    assert CommitMoves(s, step, next, r) && AddedBy(s.db, next.db, Query(s, step), id);
    assert CommitOwns(s, r, id);
    if step.ByUpload? {
      assert UploadSole(s, step.u, r) && UploadOwns(s, step.u, id);
    } else if step.Deliver? {
      assert CommitsDiffer(s, r, step.request);
    }
  }

  lemma CommitsKept(s: State, step: Step, next: State, q: Request, r: Request)
    requires Can(s, step) && InSteps(s, step, next) && Names(s)
    ensures CommitsDiffer(next, q, r)
  {
    assert CommitMoves(s, step, next, q) && CommitMoves(s, step, next, r) && CommitsDiffer(s, q, r);
    if step.ByUpload? {
      assert UploadSole(s, step.u, q) && UploadSole(s, step.u, r);
    }
  }

  lemma JobsKept(s: State, step: Step, next: State, i: SongId, j: SongId)
    requires Can(s, step) && InSteps(s, step, next) && Names(s)
    ensures JobsDiffer(next, i, j)
  {
    assert AddedBy(s.db, next.db, Query(s, step), i) && AddedBy(s.db, next.db, Query(s, step), j)
        && JobsDiffer(s, i, j);
    if step.ByUpload? {
      assert UploadOwns(s, step.u, i) && UploadOwns(s, step.u, j);
    } else if step.Deliver? {
      assert CommitOwns(s, step.request, i) && CommitOwns(s, step.request, j);
    }
  }

  lemma NamesKept(s: State, step: Step, next: State)
    requires Can(s, step) && InSteps(s, step, next) && Names(s)
    ensures Names(next)
  {
    forall u {
      UploadUsedKept(s, step, next, u);
    }
    forall id {
      JobUsedKept(s, step, next, id);
    }
    forall r {
      RequestUsedKept(s, step, next, r);
    }
    forall name {
      FileUsedKept(s, step, next, name);
    }
    forall c {
      TargetUsedKept(s, step, next, c);
    }
    forall u, v {
      UploadsKept(s, step, next, u, v);
    }
    forall u, id {
      UploadOwnsKept(s, step, next, u, id);
    }
    forall u, r {
      UploadSoleKept(s, step, next, u, r);
    }
    forall r, id {
      CommitOwnsKept(s, step, next, r, id);
    }
    forall q, r {
      CommitsKept(s, step, next, q, r);
    }
    forall i, j {
      JobsKept(s, step, next, i, j);
    }
  }

  // ----- Only finished inputs are reaped -----

  lemma DisposableKept(db: Db, next: Db, name: InputName)
    requires Evolves(db, next) && Disposable(db, name)
    ensures Disposable(next, name)
  {
    var id :| id in db.jobs && !db.jobs[id].Live() && db.jobs[id].input == name;
    assert next.jobs[id] == db.jobs[id];
  }

  lemma WorkerReapsKept(b: Bounds, s: State, step: Step, next: State, w: nat, name: InputName)
    requires Can(s, step) && InSteps(s, step, next) && In(b, s)
    ensures WorkerReaps(next, w, name)
  {
    assert WorkerReaps(s, w, name) && ReapMoves(s, step, next, w, name);
    if Disposable(s.db, name) {
      DisposableKept(s.db, next.db, name);
    }
  }

  lemma CleanerReapsKept(b: Bounds, s: State, step: Step, next: State, c: nat, name: InputName)
    requires Can(s, step) && InSteps(s, step, next) && In(b, s)
    ensures CleanerReaps(next, c, name)
  {
    assert CleanerReaps(s, c, name) && CleanerMoves(s, step, next, c);
    if step == ByCleaner(c, TakeSnapshot) && c in next.cleaners && name in next.cleaners[c].refs.terminalInputs {
      var me := s.cleaners[c];
      var id :| id in me.rows && !me.rows[id].Live() && me.rows[id].input == name;
      assert RowPast(s, c, id);
    }
    if Disposable(s.db, name) {
      DisposableKept(s.db, next.db, name);
    }
  }

  lemma RowPastKept(b: Bounds, s: State, step: Step, next: State, c: nat, id: SongId)
    requires Can(s, step) && InSteps(s, step, next) && In(b, s)
    ensures RowPast(next, c, id)
  {
    assert RowPast(s, c, id) && CleanerMoves(s, step, next, c);
  }

  // ----- Files that someone needs are not touched -----

  /** Nobody but a cleanup with an old enough file takes a needed name away. */
  lemma FileStays(b: Bounds, s: State, step: Step, next: State, name: InputName)
    requires Can(s, step) && InSteps(s, step, next) && In(b, s)
    requires name in s.inputs && name in s.usedNames && !Disposable(s.db, name) && Unthreatened(s, Input(name))
    requires !(step.ByUpload? && step.u in s.uploads && s.uploads[step.u].name == name
      && (step.up.Drop? || step.up.WriteInput?))
    ensures name in next.inputs && next.inputs[name] == s.inputs[name]
  {
    assert FileMoves(s, step, next, name);
    if step.ByWorker? {
      assert WorkerReaps(s, step.w, name);
    } else if step.ByCleaner? {
      assert CleanerReaps(s, step.c, name) && NotPending(s, step.c, Input(name));
    }
  }

  lemma StagedKept(b: Bounds, s: State, step: Step, next: State, name: InputName, written: Time)
    requires Can(s, step) && InSteps(s, step, next) && In(b, s)
    requires StagedSafe(s, name, written) && name in s.usedNames && !Disposable(s.db, name)
    requires !(step.ByUpload? && step.u in s.uploads && s.uploads[step.u].name == name
      && (step.up.Drop? || step.up.WriteInput?))
    ensures StagedSafe(next, name, written)
  {
    if next.now <= written + CLEANUP_INTERVAL {
      FileStays(b, s, step, next, name);
      if step.ByCleaner? {
        assert CleanerOk(b, s, step.c);
      }
      UnthreatenedKept(s, step, next, Input(name));
    }
  }

  lemma UploadIsNotDisposable(b: Bounds, s: State, u: nat)
    requires In(b, s) && u in s.uploads
    ensures !Disposable(s.db, s.uploads[u].name)
  {
    forall id | id in s.db.jobs
      ensures s.db.jobs[id].input != s.uploads[u].name
    {
      assert UploadOwns(s, u, id);
    }
  }

  lemma CommitIsNotDisposable(b: Bounds, s: State, r: Request)
    requires In(b, s) && r in s.inFlight && r.CommitRequest? && r.id !in s.db.jobs
    ensures !Disposable(s.db, r.name)
  {
    forall id | id in s.db.jobs
      ensures s.db.jobs[id].input != r.name
    {
      assert CommitOwns(s, r, id);
    }
  }

  lemma LiveIsNotDisposable(b: Bounds, s: State, id: SongId)
    requires In(b, s) && id in s.db.jobs && s.db.jobs[id].Live()
    ensures !Disposable(s.db, s.db.jobs[id].input)
  {
    forall other | other in s.db.jobs && !s.db.jobs[other].Live()
      ensures s.db.jobs[other].input != s.db.jobs[id].input
    {
      assert JobsDiffer(s, id, other);
    }
  }

  lemma UploadSafeKept(b: Bounds, s: State, step: Step, next: State, u: nat)
    requires Can(s, step) && InSteps(s, step, next) && In(b, s) && Timely(b, s, step) && b.idle <= CLEANUP_INTERVAL
    ensures UploadSafe(next, u)
  {
    assert UploadMoves(s, step, next, u) && UploadSafe(s, u) && UploadUsed(s, u);
    if u in next.uploads && u in s.uploads {
      UploadIsNotDisposable(b, s, u);
      if step.ByUpload? {
        assert UploadsDiffer(s, u, step.u);
      }
      if next.uploads[u].Writing? {
        WritingKept(b, s, step, next, u);
      } else if step.ByUpload? && step.u == u {
        StagingKept(b, s, step, next, u);
      } else {
        StagedKept(b, s, step, next, s.uploads[u].name, s.uploads[u].written);
      }
    } else if u in next.uploads {
      NewNameIsUnthreatened(b, s, step, next, next.uploads[u].name);
    }
  }

  lemma NewNameIsUnthreatened(b: Bounds, s: State, step: Step, next: State, name: InputName)
    requires Can(s, step) && InSteps(s, step, next) && In(b, s) && step.ByUpload? && name !in s.usedNames
    ensures Unthreatened(next, Input(name))
  {
    forall c
      ensures NotPending(s, c, Input(name))
    {
      assert TargetUsed(s, c);
    }
    UnthreatenedKept(s, step, next, Input(name));
  }

  lemma WritingKept(b: Bounds, s: State, step: Step, next: State, u: nat)
    requires Can(s, step) && InSteps(s, step, next) && In(b, s) && Timely(b, s, step) && b.idle <= CLEANUP_INTERVAL
    requires u in s.uploads && u in next.uploads && s.uploads[u] == next.uploads[u] && s.uploads[u].Writing?
    requires !Disposable(s.db, s.uploads[u].name)
    ensures UploadSafe(next, u)
  {
    var name := s.uploads[u].name;
    assert UploadSafe(s, u) && FileMoves(s, step, next, name) && UploadUsed(s, u) && UploadMoves(s, step, next, u);
    if name in next.inputs && next.now <= next.inputs[name] + CLEANUP_INTERVAL {
      if step.ByCleaner? {
        assert CleanerOk(b, s, step.c);
      } else if step.ByUpload? {
        assert UploadsDiffer(s, u, step.u);
      }
      UnthreatenedKept(s, step, next, Input(name));
    }
  }

  lemma StagingKept(b: Bounds, s: State, step: Step, next: State, u: nat)
    requires Can(s, step) && InSteps(s, step, next) && In(b, s)
    requires step.ByUpload? && step.u == u && u in s.uploads && u in next.uploads && !next.uploads[u].Writing?
    requires !Disposable(s.db, s.uploads[u].name)
    ensures UploadSafe(next, u)
  {
    var name := s.uploads[u].name;
    assert UploadMoves(s, step, next, u) && UploadSafe(s, u) && UploadUsed(s, u);
    if s.uploads[u].Writing? {
      assert StagedSafe(s, name, s.inputs[name]);
      StagedKept(b, s, step, next, name, s.inputs[name]);
    } else {
      StagedKept(b, s, step, next, name, s.uploads[u].written);
    }
  }

  lemma CommitSafeKept(b: Bounds, s: State, step: Step, next: State, r: Request)
    requires Can(s, step) && InSteps(s, step, next) && In(b, s)
    ensures CommitSafe(next, r)
  {
    if r in next.inFlight && r.CommitRequest? && r.id !in next.db.jobs {
      assert CommitMoves(s, step, next, r) && CommitSafe(s, r) && RequestUsed(s, r);
      if r in s.inFlight {
        CommitIsNotDisposable(b, s, r);
        if step.ByUpload? {
          assert UploadSole(s, step.u, r);
        }
      } else {
        UploadIsNotDisposable(b, s, step.u);
        assert UploadSafe(s, step.u) && UploadUsed(s, step.u);
      }
      StagedKept(b, s, step, next, r.name, r.written);
    }
  }

  // ----- Live jobs -----

  lemma NeedsKept(b: Bounds, s: State, step: Step, next: State, c: nat, id: SongId)
    requires Can(s, step) && InSteps(s, step, next) && In(b, s) && Timely(b, s, step)
    requires id in s.db.jobs && s.db.jobs[id].Live() && InputKept(s, id)
    requires s.db.jobs[id].input in next.inputs && next.inputs[s.db.jobs[id].input] == s.inputs[s.db.jobs[id].input]
    ensures Needs(b, next, c, id)
  {
    assert Needs(b, s, c, id) && RowPast(s, c, id) && CleanerMoves(s, step, next, c);
    if step.ByCleaner? && step.c == c && c in next.cleaners {
      CleanerNeeds(s, c, step.cl, id);
    }
  }

  /** Whether a cleanup knows that it must keep a live job's input does not change along its own steps, except that
      listing the jobs decides it. */
  lemma CleanerNeeds(s: State, c: nat, a: CleanerAction, id: SongId)
    requires CanClean(s, c, a) && !a.End? && RowPast(s, c, id) && id in s.db.jobs
    ensures var after := CleanerAfter(s, c, a);
      var name := s.db.jobs[id].input;
      if a.ListJobs? then after.phase.ListedJobs? && id in after.rows
      else
        var me := s.cleaners[c];
        && after.jobsAt == me.jobsAt
        && ((me.phase.ListedJobs? || me.phase.ListedOutputs?) && id in me.rows && s.db.jobs[id].Live()
            && me.rows[id].Live() ==>
              if after.phase.ListedJobs? || after.phase.ListedOutputs? then id in after.rows
              else name in after.refs.inputs)
        && (!(me.phase.ListedJobs? || me.phase.ListedOutputs?) ==>
              !(after.phase.ListedJobs? || after.phase.ListedOutputs?) && after.refs.inputs == me.refs.inputs)
  {
  }

  /** A cleanup that did not copy a live job's row has fixed its cutoff before the job's input could count as old. */
  lemma LiveIsNeverPicked(b: Bounds, s: State, c: nat, id: SongId)
    requires In(b, s) && id in s.db.jobs && s.db.jobs[id].Live() && KeepsInputs(b)
    ensures !CanClean(s, c, Inspect(Input(s.db.jobs[id].input)))
  {
    assert InputKept(s, id) && Needs(b, s, c, id) && CleanerOk(b, s, c);
  }

  lemma InputStays(b: Bounds, s: State, step: Step, next: State, id: SongId)
    requires Can(s, step) && InSteps(s, step, next) && In(b, s) && Timely(b, s, step) && KeepsInputs(b)
    requires id in s.db.jobs && s.db.jobs[id].Live()
    ensures InputKept(next, id) && forall c :: Needs(b, next, c, id)
  {
    var name := s.db.jobs[id].input;
    assert InputKept(s, id) && JobUsed(s, id);
    LiveIsNotDisposable(b, s, id);
    if step.ByUpload? {
      assert UploadOwns(s, step.u, id);
    } else if step.ByCleaner? {
      LiveIsNeverPicked(b, s, step.c, id);
    }
    FileStays(b, s, step, next, name);
    UnthreatenedKept(s, step, next, Input(name));
    forall c
      ensures Needs(b, next, c, id)
    {
      NeedsKept(b, s, step, next, c, id);
    }
  }

  /** The commit that creates a job finds its input in place, and finds it in time. */
  lemma InputArrives(b: Bounds, s: State, step: Step, next: State, id: SongId, name: InputName, written: Time)
    requires Can(s, step) && InSteps(s, step, next) && In(b, s)
    requires KeepsInputs(b)
    requires id !in s.db.jobs && id in next.db.jobs && next.db.jobs[id].input == name
    requires StagedSafe(s, name, written) && s.now == next.now && s.now <= written + b.stage
    requires name in s.usedNames && !Disposable(s.db, name)
    requires step.Deliver? || (step.ByUpload? && step.up.Commit?)
    ensures InputKept(next, id) && forall c :: Needs(b, next, c, id)
  {
    FileStays(b, s, step, next, name);
    UnthreatenedKept(s, step, next, Input(name));
    forall c
      ensures Needs(b, next, c, id)
    {
      assert CleanerMoves(s, step, next, c) && CleanerOk(b, s, c);
    }
  }

  lemma InputKeptOn(b: Bounds, s: State, step: Step, next: State, id: SongId)
    requires Can(s, step) && InSteps(s, step, next) && In(b, s) && Timely(b, s, step)
    requires KeepsInputs(b)
    ensures InputKept(next, id) && forall c :: Needs(b, next, c, id)
  {
    assert AddedBy(s.db, next.db, Query(s, step), id);
    if id in s.db.jobs && s.db.jobs[id].Live() {
      InputStays(b, s, step, next, id);
    } else if id in s.db.jobs {
      assert !next.db.jobs[id].Live();
    } else if id in next.db.jobs {
      if step.ByUpload? {
        var up := s.uploads[step.u];
        UploadIsNotDisposable(b, s, step.u);
        assert UploadSafe(s, step.u) && UploadUsed(s, step.u);
        InputArrives(b, s, step, next, id, up.name, up.written);
      } else {
        var r := step.request;
        CommitIsNotDisposable(b, s, r);
        assert CommitSafe(s, r) && RequestUsed(s, r);
        InputArrives(b, s, step, next, id, r.name, r.written);
      }
    }
  }

  lemma InKept(b: Bounds, s: State, step: Step)
    requires Can(s, step) && Hold(s) && In(b, s) && Timely(b, s, step)
    requires KeepsInputs(b)
    ensures In(b, Do(s, step))
  {
    StepInSteps(s, step);
    InKeptIn(b, s, step, Do(s, step));
  }

  lemma InKeptIn(b: Bounds, s: State, step: Step, next: State)
    requires Can(s, step) && InSteps(s, step, next) && In(b, s) && Timely(b, s, step)
    requires KeepsInputs(b)
    ensures In(b, next)
  {
    NamesKept(s, step, next);
    forall w, name {
      WorkerReapsKept(b, s, step, next, w, name);
    }
    forall c, name {
      CleanerReapsKept(b, s, step, next, c, name);
    }
    forall c, id {
      RowPastKept(b, s, step, next, c, id);
    }
    forall u {
      UploadSafeKept(b, s, step, next, u);
    }
    forall r {
      CommitSafeKept(b, s, step, next, r);
    }
    forall id
      ensures InputKept(next, id)
    {
      InputKeptOn(b, s, step, next, id);
    }
    forall c, id
      ensures Needs(b, next, c, id)
    {
      InputKeptOn(b, s, step, next, id);
    }
    forall c
      ensures CleanerOk(b, next, c)
    {
      assert CleanerOk(b, s, c) && CleanerMoves(s, step, next, c);
      CleanerKept(b, s, step, next, c);
    }
  }
}
