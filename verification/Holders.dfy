/** Who holds which attempt: the facts that make the attempt number a fencing token across workers and lost requests. */
module Holders {
  import opened Prelude
  import opened SongJobs
  import opened Snapshots
  import opened Protocol
  import QueueRuns

  // ----- Every run of the system is a run of the queue -----

  function Abs(s: State): QueueRuns.Queue {
    QueueRuns.Queue(s.now, s.db)
  }

  ghost function EventOf(s: State, step: Step): QueueRuns.Event
    requires Can(s, step)
  {
    if step.Tick? then QueueRuns.Tick(step.elapsed)
    else
      var query := Query(s, step);
      if query.None? then QueueRuns.Tick(0) else QueueRuns.Run(query.value)
  }

  /** Transactions and in-flight commits began in the past. */
  ghost predicate BegunOk(s: State, r: Request) {
    r in s.inFlight && r.CommitRequest? ==> r.begun <= s.now
  }

  lemma StepProjects(s: State, step: Step)
    requires Can(s, step) && (step.Deliver? ==> BegunOk(s, step.request))
    ensures QueueRuns.Follows(Abs(s), EventOf(s, step), Abs(Do(s, step)))
  {
    match step
    case Tick(_) =>
    case ByUpload(_, _) =>
    case ByWorker(_, _) =>
    case ByCleaner(_, _) =>
    case Deliver(_) =>
    case Unheard(_) =>
  }

  // ----- The invariant -----

  ghost predicate HolderOk(s: State, w: nat) {
    var me := WorkerOf(s, w);
    me.Holding? ==>
      && Handed(s.db, me.job) && me.input == s.db.jobs[me.job.song].input
      && (me.stage.Completing? ==> !me.renewFailed && !me.cancelled && !me.timedOut)
  }

  ghost predicate HoldersDiffer(s: State, v: nat, w: nat) {
    v != w && WorkerOf(s, v).Holding? && WorkerOf(s, w).Holding? ==> WorkerOf(s, v).job != WorkerOf(s, w).job
  }

  predicate Finishes(r: Request, a: Attempt) {
    (r.CompleteRequest? || r.RecordRequest?) && r.attempt == a
  }

  ghost predicate RequestOk(s: State, r: Request) {
    r in s.inFlight && !r.CommitRequest? ==> Handed(s.db, r.attempt)
  }

  /** Once its finishing request is on the wire, nobody holds the attempt. */
  ghost predicate RequestUnheld(s: State, r: Request, w: nat) {
    r in s.inFlight && WorkerOf(s, w).Holding? ==> !Finishes(r, WorkerOf(s, w).job)
  }

  predicate ReadyBy(db: Db, a: Attempt) {
    a.song in db.jobs && a.song in db.songs && db.songs[a.song].status.Ready?
        && db.jobs[a.song].attemptCount == a.number
  }

  ghost predicate ReadyUnheld(s: State, w: nat) {
    WorkerOf(s, w).Holding? ==> !ReadyBy(s.db, WorkerOf(s, w).job)
  }

  ghost predicate Hold(s: State) {
    && Consistent(s.db)
    && (forall r :: BegunOk(s, r))
    && (forall w :: HolderOk(s, w))
    && (forall v, w :: HoldersDiffer(s, v, w))
    && (forall r :: RequestOk(s, r))
    && (forall r, w :: RequestUnheld(s, r, w))
    && (forall w :: ReadyUnheld(s, w))
  }

  // ----- What one step does to a worker, to the requests in flight, and to the tables -----

  predicate Unflagged(me: Worker) {
    me.Holding? && me.stage.Completing? ==> !me.renewFailed && !me.cancelled && !me.timedOut
  }

  /** A worker that holds an attempt after the step held it before, or has just claimed it. */
  ghost predicate Moves(s: State, step: Step, next: State, w: nat) {
    var before, after := WorkerOf(s, w), WorkerOf(next, w);
    && (step.ByWorker? && step.w == w ==>
          (after.Holding? ==>
            || (before.Holding? && before.job == after.job && before.input == after.input)
            || (before.Free? && step.wk.ClaimJob? && step.wk.id in s.db.jobs
                && after.job == Attempt(step.wk.id, s.db.jobs[step.wk.id].attemptCount + 1)
                && after.input == s.db.jobs[step.wk.id].input))
          && (step.wk.SendComplete? ==> after.Free? || !Current(s.db, before.job))
          && (Unflagged(before) ==> Unflagged(after)))
    && (!(step.ByWorker? && step.w == w) ==> after == before)
  }

  lemma UploadTouches(s: State, u: nat, a: UploadAction)
    requires CanUpload(s, u, a)
    ensures var next := DoUpload(s, u, a);
      && next.workers == s.workers && next.cleaners == s.cleaners && next.work == s.work && next.songs == s.songs
      && s.inFlight <= next.inFlight && s.usedNames <= next.usedNames
      && forall r <- next.inFlight - s.inFlight :: r.CommitRequest? && r.begun <= s.now
  {
  }

  lemma CleanerTouches(s: State, c: nat, a: CleanerAction)
    requires CanClean(s, c, a)
    ensures var next := DoClean(s, c, a);
      && next.workers == s.workers && next.uploads == s.uploads && next.inFlight == s.inFlight
          && next.usedNames == s.usedNames
  {
  }

  lemma StepMoves(s: State, step: Step, w: nat)
    requires Can(s, step)
    ensures Moves(s, step, Local(s, step), w)
  {
    match step
    case Tick(_) =>
    case ByUpload(u, a) => UploadTouches(s, u, a);
    case ByCleaner(c, a) => CleanerTouches(s, c, a);
    case Deliver(_) =>
    case Unheard(_) =>
    case ByWorker(v, a) => WorkerMoves(s, v, a, w);
  }

  lemma WorkerMoves(s: State, v: nat, a: WorkerAction, w: nat)
    requires CanWorker(s, v, a)
    ensures Moves(s, ByWorker(v, a), DoWorker(s, v, a), w)
  {
  }

  /** A request that enters the wire comes from the holder of its attempt, who lets go of it if the request is a
      finishing one. */
  ghost predicate Sends(s: State, step: Step, next: State, r: Request) {
    r in next.inFlight ==>
      || r in s.inFlight
      || (r.CommitRequest? && r.begun <= s.now)
      || (&& !r.CommitRequest? && step.ByWorker? && WorkerOf(s, step.w).Holding? && WorkerOf(s, step.w).job == r.attempt
          && (!r.RenewRequest? ==> WorkerOf(next, step.w).Free?)
          && (r.CompleteRequest? ==> step.wk.LoseComplete? && WorkerOf(s, step.w).stage == Completing(r.filled)))
  }

  lemma StepSends(s: State, step: Step, r: Request)
    requires Can(s, step)
    ensures Sends(s, step, Local(s, step), r)
  {
  }

  /** The tables stay consistent and only evolve; a claim hands out the next attempt; only a complete request makes a
      song READY. */
  ghost predicate DbMoves(s: State, step: Step, db: Db)
    requires Can(s, step)
  {
    && Consistent(db) && Evolves(s.db, db)
    && (step.ByWorker? && step.wk.ClaimJob? ==>
          && step.wk.id in s.db.jobs && step.wk.id in db.jobs && db.jobs[step.wk.id].Live()
          && db.jobs[step.wk.id].attemptCount == s.db.jobs[step.wk.id].attemptCount + 1)
    && (forall a :: ReadyFrom(s.db, db, Query(s, step), a))
    && (forall id :: AddedBy(s.db, db, Query(s, step), id))
  }

  ghost predicate ReadyFrom(db: Db, next: Db, query: Option<Statement>, a: Attempt) {
    ReadyBy(next, a) ==> ReadyBy(db, a) || (query == Some(Complete(a)) && Current(db, a))
  }

  ghost predicate AddedBy(db: Db, next: Db, query: Option<Statement>, id: SongId) {
    id in next.jobs && id !in db.jobs ==>
      query.Some? && query.value.Enqueue? && query.value.id == id && next.jobs[id].Live()
          && next.jobs[id].input == query.value.input
  }

  lemma StepDb(s: State, step: Step)
    requires Can(s, step) && Consistent(s.db) && (step.Deliver? ==> BegunOk(s, step.request))
    ensures DbMoves(s, step, DbAfter(s, step))
  {
    var query := Query(s, step);
    if query.Some? {
      StepProjects(s, step);
      ExecKeepsConsistent(s.db, s.now, query.value);
      ExecEvolves(s.db, s.now, query.value);
      forall a
        ensures ReadyFrom(s.db, DbAfter(s, step), query, a)
      {
        if ReadyBy(DbAfter(s, step), a) {
          OnlyCompleteMakesReady(s.db, s.now, query.value, a.song);
        }
      }
      forall id
        ensures AddedBy(s.db, DbAfter(s, step), query, id)
      {
        if id in DbAfter(s, step).jobs && id !in s.db.jobs {
          OnlyEnqueueAddsRows(s.db, s.now, query.value, id);
        }
      }
    }
  }

  // ----- Preservation -----

  /** What the lemmas below need of a step: the local effect on workers and requests, and the move of the tables. */
  ghost predicate Steps(s: State, step: Step, next: State)
    requires Can(s, step)
  {
    && Hold(s) && s.now <= next.now && DbMoves(s, step, next.db)
    && (forall w :: Moves(s, step, next, w))
    && (forall r :: Sends(s, step, next, r))
  }

  lemma HolderKept(s: State, step: Step, next: State, w: nat)
    requires Can(s, step) && Steps(s, step, next)
    ensures HolderOk(next, w)
  {
    assert Moves(s, step, next, w) && HolderOk(s, w);
  }

  lemma HoldersKept(s: State, step: Step, next: State, v: nat, w: nat)
    requires Can(s, step) && Steps(s, step, next)
    ensures HoldersDiffer(next, v, w)
  {
    assert Moves(s, step, next, v) && Moves(s, step, next, w);
    assert HolderOk(s, v) && HolderOk(s, w) && HoldersDiffer(s, v, w);
  }

  lemma RequestKept(s: State, step: Step, next: State, r: Request)
    requires Can(s, step) && Steps(s, step, next)
    ensures RequestOk(next, r) && BegunOk(next, r)
  {
    assert Sends(s, step, next, r) && RequestOk(s, r) && BegunOk(s, r);
    if step.ByWorker? {
      assert HolderOk(s, step.w);
    }
  }

  lemma RequestUnheldKept(s: State, step: Step, next: State, r: Request, w: nat)
    requires Can(s, step) && Steps(s, step, next)
    ensures RequestUnheld(next, r, w)
  {
    assert Sends(s, step, next, r) && Moves(s, step, next, w);
    assert RequestUnheld(s, r, w) && RequestOk(s, r);
    if step.ByWorker? {
      assert HoldersDiffer(s, step.w, w) && HolderOk(s, step.w);
    }
  }

  lemma ReadyUnheldKept(s: State, step: Step, next: State, w: nat)
    requires Can(s, step) && Steps(s, step, next)
    ensures ReadyUnheld(next, w)
  {
    assert Moves(s, step, next, w) && ReadyUnheld(s, w);
    if step.ByWorker? {
      assert HoldersDiffer(s, step.w, w);
    } else if step.Deliver? {
      assert RequestUnheld(s, step.request, w);
    }
    if WorkerOf(next, w).Holding? {
      assert RowOk(next.db, WorkerOf(next, w).job.song);
      assert ReadyFrom(s.db, next.db, Query(s, step), WorkerOf(next, w).job);
    }
  }

  lemma StepSteps(s: State, step: Step)
    requires Can(s, step) && Hold(s)
    ensures Steps(s, step, Do(s, step))
  {
    var local := Local(s, step);
    var next := Do(s, step);
    assert step.Deliver? ==> BegunOk(s, step.request);
    StepDb(s, step);
    forall w
      ensures Moves(s, step, next, w)
    {
      StepMoves(s, step, w);
      assert WorkerOf(next, w) == WorkerOf(local, w);
    }
    forall r
      ensures Sends(s, step, next, r)
    {
      StepSends(s, step, r);
    }
  }

  lemma HoldKept(s: State, step: Step)
    requires Can(s, step) && Hold(s)
    ensures Hold(Do(s, step))
  {
    StepSteps(s, step);
    HoldKeptIn(s, step, Do(s, step));
  }

  lemma HoldKeptIn(s: State, step: Step, next: State)
    requires Can(s, step) && Steps(s, step, next)
    ensures Hold(next)
  {
    forall w
      ensures HolderOk(next, w) && ReadyUnheld(next, w)
    {
      HolderKept(s, step, next, w);
      ReadyUnheldKept(s, step, next, w);
    }
    forall v, w {
      HoldersKept(s, step, next, v, w);
    }
    forall r
      ensures RequestOk(next, r) && BegunOk(next, r)
    {
      RequestKept(s, step, next, r);
    }
    forall r, w {
      RequestUnheldKept(s, step, next, r, w);
    }
  }
}
