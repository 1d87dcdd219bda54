/** What the imperative code does to rows and files, some enabled steps of the state machine do too. */
module Refinement {
  import opened Prelude
  import opened Columns
  import opened SongJobs
  import opened Snapshots
  import opened Protocol
  import opened Holders
  import Runner
  import Upload

  /** The steps lead from s, through the states, to t. */
  ghost predicate IsPath(s: State, ss: seq<State>, steps: seq<Step>, t: State) {
    |ss| == |steps| + 1 && ss[0] == s && ss[|steps|] == t && forall i :: FollowsAt(ss, steps, i)
  }

  ghost predicate Leads(s: State, t: State) {
    exists ss, steps :: IsPath(s, ss, steps, t)
  }

  lemma Chain(s: State, t: State, u: State)
    requires Leads(s, t) && Leads(t, u)
    ensures Leads(s, u)
  {
    var ss, first :| IsPath(s, ss, first, t);
    var ts, second :| IsPath(t, ts, second, u);
    var all, steps := ss[..|first|] + ts, first + second;
    forall i
      ensures FollowsAt(all, steps, i)
    {
      assert FollowsAt(ss, first, i) && FollowsAt(ts, second, i - |first|);
    }
    assert IsPath(s, all, steps, u);
  }

  lemma Stay(s: State)
    ensures Leads(s, s)
  {
    assert IsPath(s, [s], [], s);
  }

  lemma One(s: State, step: Step, t: State)
    requires Can(s, step) && Do(s, step) == t
    ensures Leads(s, t)
  {
    assert IsPath(s, [s, t], [step], t);
  }

  ghost function With(s: State, w: nat, me: Worker): State {
    s.(workers := s.workers[w := me])
  }

  lemma WithTwice(s: State, w: nat, first: Worker, me: Worker)
    ensures With(With(s, w, first), w, me) == With(s, w, me)
  {
    assert s.workers[w := first][w := me] == s.workers[w := me];
  }

  // ----- Single steps of a worker, with their whole effect -----

  lemma Discards(s: State, w: nat)
    requires WorkerOf(s, w).Holding? && WorkerOf(s, w).stage.Discarding? && WorkerOf(s, w).stage.hasOutput
    ensures Leads(s, With(s, w, WorkerOf(s, w)).(songs := s.songs - {WorkerOf(s, w).job}))
  {
    One(s, ByWorker(w, Discard(None)), With(s, w, WorkerOf(s, w)).(songs := s.songs - {WorkerOf(s, w).job}));
  }

  lemma FinishesDiscard(s: State, w: nat)
    requires WorkerOf(s, w).Holding? && WorkerOf(s, w).stage.Discarding?
    ensures var me := WorkerOf(s, w);
      Leads(s, With(s, w, if me.stage.recordNext then me.(stage := Recording) else Free({})))
  {
    var me := WorkerOf(s, w);
    One(s, ByWorker(w, FinishDiscard), With(s, w, if me.stage.recordNext then me.(stage := Recording) else Free({})));
  }

  /** A finishing request that is answered. */
  lemma Asks(s: State, w: nat, a: WorkerAction, st: Statement)
    requires CanWorker(s, w, a)
    requires (a.SendRecord? && st == Record(WorkerOf(s, w).job))
      || (a.SendComplete? && st == Complete(WorkerOf(s, w).job))
    ensures Leads(s, With(s, w, WorkerAfter(s, w, a)).(db := Exec(s.db, s.now, st)))
  {
    assert DbAfter(s, ByWorker(w, a)) == Exec(s.db, s.now, st);
    assert DoWorker(s, w, a) == With(s, w, WorkerAfter(s, w, a));
    One(s, ByWorker(w, a), With(s, w, WorkerAfter(s, w, a)).(db := Exec(s.db, s.now, st)));
  }

  lemma SendsRecord(s: State, w: nat)
    requires WorkerOf(s, w).Holding? && WorkerOf(s, w).stage.Recording?
    ensures var me := WorkerOf(s, w);
      var gone := if Current(s.db, me.job) && MAX_ATTEMPTS <= me.job.number then {me.input} else {};
      Leads(s, With(s, w, Free(gone)).(db := Exec(s.db, s.now, Record(me.job))))
  {
    var me := WorkerOf(s, w);
    var gone := if Current(s.db, me.job) && MAX_ATTEMPTS <= me.job.number then {me.input} else {};
    assert WorkerAfter(s, w, SendRecord) == Free(gone);
    Asks(s, w, SendRecord, Record(me.job));
  }

  lemma SendsComplete(s: State, w: nat)
    requires WorkerOf(s, w).Holding? && WorkerOf(s, w).stage.Completing?
    ensures var me := WorkerOf(s, w);
      var next := if Current(s.db, me.job) then Free({me.input}) else me.(stage := Discarding(true, false));
      Leads(s, With(s, w, next).(db := Exec(s.db, s.now, Complete(me.job))))
  {
    var me := WorkerOf(s, w);
    var next := if Current(s.db, me.job) then Free({me.input}) else me.(stage := Discarding(true, false));
    assert WorkerAfter(s, w, SendComplete) == next;
    Asks(s, w, SendComplete, Complete(me.job));
  }

  /** A request that gets no reply is applied now, or stays on the wire. */
  lemma Loses(s: State, w: nat, applied: bool)
    requires WorkerOf(s, w).Holding? && (WorkerOf(s, w).stage.Recording? || WorkerOf(s, w).stage.Completing?)
    ensures var me := WorkerOf(s, w);
      var r := if me.stage.Recording? then RecordRequest(me.job) else CompleteRequest(me.job, me.stage.filled);
      var db := if applied then Exec(s.db, s.now, StatementOf(r)) else s.db;
      Leads(s, With(s, w, Free({})).(inFlight := s.inFlight + {r}, db := db))
  {
    var me := WorkerOf(s, w);
    var r := if me.stage.Recording? then RecordRequest(me.job) else CompleteRequest(me.job, me.stage.filled);
    var sent := With(s, w, Free({})).(inFlight := s.inFlight + {r});
    One(s, ByWorker(w, if me.stage.Recording? then LoseRecord else LoseComplete), sent);
    if applied {
      Delivers(sent, r);
      Chain(s, sent, sent.(db := Exec(s.db, s.now, StatementOf(r))));
    }
  }

  lemma Delivers(s: State, r: Request)
    requires r in s.inFlight && !r.CommitRequest?
    ensures Leads(s, s.(db := Exec(s.db, s.now, StatementOf(r))))
  {
    One(s, Deliver(r), s.(db := Exec(s.db, s.now, StatementOf(r))));
  }

  lemma Reaps(s: State, w: nat, name: InputName, works: bool)
    requires w in s.workers && s.workers[w] == Free({name})
    ensures Leads(s, With(s, w, Free({})).(inputs := if works then s.inputs - {name} else s.inputs))
  {
    assert {name} - {name} == {};
    One(s, ByWorker(w, ReapInput(name, works)),
        With(s, w, Free({})).(inputs := if works then s.inputs - {name} else s.inputs));
  }

  // ----- The end of process -----

  /** What a run from s to t makes of the rows, the inputs, this attempt's output and this worker. */
  ghost predicate EndsIn(s: State, t: State, w: nat, db: Db, inputs: map<InputName, Time>, songs: map<Attempt, OutDir>)
  {
    Leads(s, t) && t.now == s.now && t.db == db && t.inputs == inputs && t.songs == songs
  }

  ghost function Without(songs: map<Attempt, OutDir>, a: Attempt, gone: bool): map<Attempt, OutDir> {
    if gone then songs - {a} else songs
  }

  ghost function Dropped(inputs: map<InputName, Time>, name: InputName, gone: bool): map<InputName, Time> {
    if gone then inputs - {name} else inputs
  }

  lemma Clears(s: State, w: nat, works: bool) returns (t: State)
    requires WorkerOf(s, w).Holding? && WorkerOf(s, w).stage.Discarding?
    ensures var me := WorkerOf(s, w);
      && EndsIn(s, t, w, s.db, s.inputs, Without(s.songs, me.job, me.stage.hasOutput && works))
      && WorkerOf(t, w) == if me.stage.recordNext then me.(stage := Recording) else Free({})
  {
    var me := WorkerOf(s, w);
    var after := if me.stage.recordNext then me.(stage := Recording) else Free({});
    if me.stage.hasOutput && works {
      var mid := With(s, w, me).(songs := s.songs - {me.job});
      Discards(s, w);
      FinishesDiscard(mid, w);
      t := With(s, w, after).(songs := s.songs - {me.job});
      WithTwice(s.(songs := s.songs - {me.job}), w, me, after);
      Chain(s, mid, t);
    } else {
      FinishesDiscard(s, w);
      t := With(s, w, after);
    }
  }

  lemma Drops(s: State, w: nat, name: InputName, works: bool) returns (t: State)
    requires w in s.workers && s.workers[w] == Free({name})
    ensures EndsIn(s, t, w, s.db, Dropped(s.inputs, name, works), s.songs)
  {
    Reaps(s, w, name, works);
    t := With(s, w, Free({})).(inputs := if works then s.inputs - {name} else s.inputs);
  }

  lemma Records(s: State, w: nat, reply: Runner.Reply, removes: bool) returns (t: State)
    requires WorkerOf(s, w).Holding? && WorkerOf(s, w).stage.Recording?
    ensures var me := WorkerOf(s, w);
      var gone := reply.Heard? && IsHeld(s.db.jobs, me.job) && 3 <= me.job.number && removes;
      EndsIn(s, t, w, if reply.Applied() then RecordFailure(s.db, me.job, s.now) else s.db,
             Dropped(s.inputs, me.input, gone), s.songs)
  {
    var me := WorkerOf(s, w);
    if reply.Heard? {
      SendsRecord(s, w);
      var last := Current(s.db, me.job) && MAX_ATTEMPTS <= me.job.number;
      var mid := With(s, w, Free(if last then {me.input} else {})).(db := Exec(s.db, s.now, Record(me.job)));
      t := mid;
      if last {
        t := Drops(mid, w, me.input, removes);
        Chain(s, mid, t);
      }
    } else {
      Loses(s, w, reply.applied);
      var db := if reply.applied then Exec(s.db, s.now, Record(me.job)) else s.db;
      t := With(s, w, Free({})).(inFlight := s.inFlight + {RecordRequest(me.job)}, db := db);
    }
  }

  lemma Completes(s: State, w: nat, reply: Runner.Reply, removes: bool, discards: bool) returns (t: State)
    requires WorkerOf(s, w).Holding? && WorkerOf(s, w).stage.Completing?
    ensures var me := WorkerOf(s, w);
      var held := IsHeld(s.db.jobs, me.job);
      EndsIn(s, t, w, if reply.Applied() then CompleteJob(s.db, me.job, PublishedFor(me.job), s.now) else s.db,
             Dropped(s.inputs, me.input, reply.Heard? && held && removes),
             Without(s.songs, me.job, reply.Heard? && !held && discards))
  {
    var me := WorkerOf(s, w);
    var held := Current(s.db, me.job);
    if reply.Heard? {
      SendsComplete(s, w);
      var next := if held then Free({me.input}) else me.(stage := Discarding(true, false));
      var mid := With(s, w, next).(db := Exec(s.db, s.now, Complete(me.job)));
      if held {
        t := Drops(mid, w, me.input, removes);
      } else {
        t := Clears(mid, w, discards);
      }
      Chain(s, mid, t);
    } else {
      Loses(s, w, reply.applied);
      var db := if reply.applied then Exec(s.db, s.now, Complete(me.job)) else s.db;
      t := With(s, w, Free({})).(inFlight := s.inFlight + {CompleteRequest(me.job, me.stage.filled)}, db := db);
    }
  }

  /** The worker has reached the point that `world` describes: Process has returned and the renewer has stopped. */
  ghost predicate HasReturned(s: State, w: nat, world: Runner.World, renewFailed: bool) {
    var me := WorkerOf(s, w);
    && me.Holding? && me.stage.Returned? && me.stage.published.Some? == world.published && world.finishAt == s.now
    && me.renewFailed == renewFailed && me.cancelled == world.cancelled && me.timedOut == world.timedOut
  }

  /** Everything that Runner's end of process does to rows, input and output, enabled steps of the state machine do. */
  lemma ConcludeIsARun(s: State, w: nat, world: Runner.World, renewFailed: bool) returns (t: State)
    requires HasReturned(s, w, world, renewFailed)
    ensures var me := WorkerOf(s, w);
      EndsIn(s, t, w, Runner.Finished(s.db, me.job, Decision(me).stage, world),
             Dropped(s.inputs, me.input, Runner.InputGoes(s.db, me.job, world, renewFailed)),
             Without(s.songs, me.job, Runner.OutputGoes(s.db, me.job, world, renewFailed)))
  {
    var me := WorkerOf(s, w);
    var mid := With(s, w, Decision(me));
    One(s, ByWorker(w, Decide), mid);
    if renewFailed || world.cancelled {
      t := Clears(mid, w, world.discards);
    } else if world.timedOut {
      var cleared := Clears(mid, w, world.discards);
      t := Records(cleared, w, world.reply, world.removes);
      Chain(mid, cleared, t);
    } else if !world.published {
      t := Records(mid, w, world.reply, world.removes);
    } else {
      t := Completes(mid, w, world.reply, world.removes, world.discards);
    }
    Chain(s, mid, t);
  }

  // ----- Uploads -----

  ghost function Uploading(s: State, u: nat, up: Protocol.Upload): State {
    s.(uploads := s.uploads[u := up])
  }

  lemma DropsUpload(s: State, u: nat, works: bool)
    requires u in s.uploads
    ensures Leads(s, s.(uploads := s.uploads - {u}, inputs := Dropped(s.inputs, s.uploads[u].name, works)))
  {
    One(s, ByUpload(u, Drop(works)),
        s.(uploads := s.uploads - {u}, inputs := Dropped(s.inputs, s.uploads[u].name, works)));
  }

  /** The commit is answered, or gets no reply and is applied now or stays on the wire. */
  lemma Commits(s: State, u: nat, id: SongId, name: InputName, written: Time, commit: Upload.Commit) returns (t: State)
    requires u in s.uploads && s.uploads[u] == Open(name, written, s.now) && FreshId(s, id) && !commit.RolledBack?
    ensures Leads(s, t) && t.inputs == s.inputs && t.now == s.now
    ensures t.db == if commit.Committed? || commit.applied then EnqueueJob(s.db, id, name, s.now) else s.db
  {
    if commit.Committed? {
      t := s.(uploads := s.uploads - {u}, db := EnqueueJob(s.db, id, name, s.now));
      One(s, ByUpload(u, Protocol.Commit(id)), t);
    } else {
      var r := CommitRequest(id, name, written, s.now);
      t := s.(uploads := s.uploads - {u}, inFlight := s.inFlight + {r});
      One(s, ByUpload(u, LoseCommit(id)), t);
      if commit.applied {
        var sent := t;
        t := sent.(db := EnqueueJob(s.db, id, name, s.now));
        One(sent, Deliver(r), t);
        Chain(s, sent, t);
      }
    }
  }

  /** Everything that Upload does to rows and files, enabled steps of the state machine do too. */
  lemma UploadIsARun(
      s: State, u: nat, form: Upload.Form, disk: Upload.Disk, p: Upload.Probe, id: SongId, tx: Upload.Transaction,
      removable: bool)
      returns (t: State)
    requires u !in s.uploads && disk.name !in s.usedNames && disk.name !in s.inputs && FreshId(s, id)
    ensures Leads(s, t)
    ensures t.db
      == if Upload.Acceptable(form, disk, p) && tx.Applied() then EnqueueJob(s.db, id, disk.name, s.now) else s.db
    ensures t.inputs
         == if Upload.LeavesFile(form, disk, p, tx, removable) then s.inputs[disk.name := s.now] else s.inputs
  {
    t := s;
    Stay(s);
    if Upload.FormOk(form) && disk.createOk {
      var name := disk.name;
      var created :=
        Uploading(s, u, Writing(name)).(inputs := s.inputs[name := s.now], usedNames := s.usedNames + {name});
      One(s, ByUpload(u, CreateInput(name)), created);
      assert s.inputs[name := s.now] - {name} == s.inputs;
      if Upload.Acceptable(form, disk, p) {
        t := Persists(created, u, name, id, tx, removable);
      } else {
        DropsUpload(created, u, removable);
        t := created.(uploads := created.uploads - {u}, inputs := Dropped(created.inputs, name, removable));
      }
      Chain(s, created, t);
    }
  }

  lemma Persists(s: State, u: nat, name: InputName, id: SongId, tx: Upload.Transaction, removable: bool)
      returns (t: State)
    requires u in s.uploads && s.uploads[u] == Writing(name) && name in s.inputs && FreshId(s, id)
    ensures Leads(s, t) && t.db == if tx.Applied() then EnqueueJob(s.db, id, name, s.now) else s.db
    ensures t.inputs == Dropped(s.inputs, name, removable && (!tx.Reached() || tx.commit.RolledBack?))
  {
    var written := s.inputs[name];
    var staged := Uploading(s, u, Staged(name, written));
    One(s, ByUpload(u, StageInput), staged);
    if !tx.beginOk {
      DropsUpload(staged, u, removable);
      t := staged.(uploads := staged.uploads - {u}, inputs := Dropped(staged.inputs, name, removable));
    } else {
      var begun := Uploading(staged, u, Open(name, written, s.now));
      One(staged, ByUpload(u, BeginTx), begun);
      if tx.Reached() && !tx.commit.RolledBack? {
        t := Commits(begun, u, id, name, written, tx.commit);
      } else {
        DropsUpload(begun, u, removable);
        t := begun.(uploads := begun.uploads - {u}, inputs := Dropped(begun.inputs, name, removable));
      }
      Chain(staged, begun, t);
    }
    Chain(s, staged, t);
  }

  // ----- The rest of a worker's pass -----

  /** A renewal that Runner makes at this moment is a step, or a step and a delivery. */
  lemma RenewalIsARun(s: State, w: nat, tick: Runner.Tick) returns (t: State)
    requires WorkerOf(s, w).Holding? && InProcess(WorkerOf(s, w).stage) && !WorkerOf(s, w).renewFailed
      && tick.at == s.now
    requires !tick.ended ==> !WorkerOf(s, w).cancelled && !WorkerOf(s, w).timedOut
    ensures var me := WorkerOf(s, w);
      var (db, failed) := Runner.Renewals(s.db, me.job, [tick]);
      EndsIn(s, t, w, db, s.inputs, s.songs) && WorkerOf(t, w) == me.(renewFailed := failed)
  {
    var me := WorkerOf(s, w);
    if tick.reply.Heard? && !tick.ended {
      Renews(s, w);
      var failed := !Runner.IsRenewable(s.db, me.job, s.now);
      t := With(s, w, me.(renewFailed := failed)).(db := RenewJob(s.db, me.job, s.now));
    } else {
      t := LosesRenewal(s, w, !tick.ended, tick.reply.Applied());
    }
  }

  lemma Renews(s: State, w: nat)
    requires WorkerOf(s, w).Holding? && CanWorker(s, w, RenewLease)
    ensures var me := WorkerOf(s, w);
      var failed := !Runner.IsRenewable(s.db, me.job, s.now);
      Leads(s, With(s, w, me.(renewFailed := failed)).(db := RenewJob(s.db, me.job, s.now)))
  {
    var me := WorkerOf(s, w);
    var failed := !Runner.IsRenewable(s.db, me.job, s.now);
    One(s, ByWorker(w, RenewLease), With(s, w, me.(renewFailed := failed)).(db := RenewJob(s.db, me.job, s.now)));
  }

  lemma LosesRenewal(s: State, w: nat, recorded: bool, applied: bool) returns (t: State)
    requires WorkerOf(s, w).Holding? && CanWorker(s, w, LoseRenewal(recorded))
    ensures var me := WorkerOf(s, w);
      EndsIn(s, t, w, if applied then RenewJob(s.db, me.job, s.now) else s.db, s.inputs, s.songs)
      && WorkerOf(t, w) == me.(renewFailed := recorded)
  {
    var me := WorkerOf(s, w);
    var r := RenewRequest(me.job);
    var sent := With(s, w, me.(renewFailed := recorded)).(inFlight := s.inFlight + {r});
    One(s, ByWorker(w, LoseRenewal(recorded)), sent);
    t := sent;
    if applied {
      t := sent.(db := Exec(s.db, s.now, Renew(me.job)));
      Delivers(sent, r);
      Chain(s, sent, t);
    }
  }

  /** Process can fail at any point, with the deadline passed or not and the worker shut down or not. */
  lemma ProcessCanFail(s: State, w: nat, cancelled: bool, timedOut: bool) returns (t: State)
    requires var me := WorkerOf(s, w); me.Holding? && InProcess(me.stage) && !me.cancelled && !me.timedOut
    ensures var me := WorkerOf(s, w);
      EndsIn(s, t, w, s.db, s.inputs, s.songs)
      && WorkerOf(t, w) == me.(stage := Returned(None), cancelled := cancelled, timedOut := timedOut)
  {
    var me := WorkerOf(s, w);
    var late := With(s, w, me.(timedOut := timedOut));
    var stopped := With(s, w, me.(timedOut := timedOut, cancelled := cancelled));
    t := With(s, w, me.(stage := Returned(None), timedOut := timedOut, cancelled := cancelled));
    PassesDeadline(s, w, timedOut);
    IsCancelled(late, w, cancelled);
    WithTwice(s, w, WorkerOf(late, w), WorkerOf(stopped, w));
    Chain(s, late, stopped);
    Fails(stopped, w);
    WithTwice(s, w, WorkerOf(stopped, w), WorkerOf(t, w));
    Chain(s, stopped, t);
  }

  lemma PassesDeadline(s: State, w: nat, timedOut: bool)
    requires WorkerOf(s, w).Holding? && InProcess(WorkerOf(s, w).stage) && !WorkerOf(s, w).timedOut
    ensures Leads(s, With(s, w, WorkerOf(s, w).(timedOut := timedOut)))
  {
    if timedOut {
      One(s, ByWorker(w, PassDeadline), With(s, w, WorkerOf(s, w).(timedOut := true)));
    } else {
      assert With(s, w, WorkerOf(s, w)) == s by {
        assert s.workers[w := WorkerOf(s, w)] == s.workers;
      }
      Stay(s);
    }
  }

  lemma IsCancelled(s: State, w: nat, cancelled: bool)
    requires WorkerOf(s, w).Holding? && InProcess(WorkerOf(s, w).stage) && !WorkerOf(s, w).cancelled
    ensures Leads(s, With(s, w, WorkerOf(s, w).(cancelled := cancelled)))
  {
    if cancelled {
      One(s, ByWorker(w, CancelWork), With(s, w, WorkerOf(s, w).(cancelled := true)));
    } else {
      assert With(s, w, WorkerOf(s, w)) == s by {
        assert s.workers[w := WorkerOf(s, w)] == s.workers;
      }
      Stay(s);
    }
  }

  lemma Fails(s: State, w: nat)
    requires WorkerOf(s, w).Holding? && InProcess(WorkerOf(s, w).stage)
    ensures Leads(s, With(s, w, WorkerOf(s, w).(stage := Returned(None))))
  {
    One(s, ByWorker(w, ProcessFails(false)), With(s, w, WorkerOf(s, w).(stage := Returned(None))));
  }

  lemma {:induction false} ReapsAll(s: State, w: nat, names: set<InputName>) returns (t: State)
    requires w in s.workers && s.workers[w] == Free(names)
    ensures EndsIn(s, t, w, s.db, s.inputs - names, s.songs) && WorkerOf(t, w) == Free({})
    decreases |names|
  {
    if names == {} {
      Stay(s);
      t := s;
      assert s.inputs - {} == s.inputs;
    } else {
      var name :| name in names;
      var mid := With(s, w, Free(names - {name})).(inputs := s.inputs - {name});
      One(s, ByWorker(w, ReapInput(name, true)), mid);
      t := ReapsAll(mid, w, names - {name});
      Chain(s, mid, t);
      assert s.inputs - {name} - (names - {name}) == s.inputs - names;
    }
  }

  /** Failing the exhausted jobs and dropping their inputs, as Runner's pass begins. */
  lemma ExpireIsARun(s: State, w: nat) returns (t: State)
    requires WorkerOf(s, w) == Free({})
    ensures EndsIn(s, t, w, FailExpired(s.db, s.now), s.inputs - ExpiredInputs(s.db, s.now), s.songs)
    ensures forall name ::
      name in t.inputs <==> name in s.inputs && !Runner.NamesExhausted(s.db, s.now, name)
    ensures WorkerOf(t, w) == Free({})
  {
    var mid := With(s, w, Free(ExpiredInputs(s.db, s.now))).(db := FailExpired(s.db, s.now));
    One(s, ByWorker(w, ExpireJobs), mid);
    t := ReapsAll(mid, w, ExpiredInputs(s.db, s.now));
    Chain(s, mid, t);
  }

  // ----- Cleanup -----

  ghost function WithCleaner(s: State, c: nat, me: Cleaner): State {
    s.(cleaners := s.cleaners[c := me])
  }

  ghost function Snapshot(s: State, terminal: set<InputName>): Cleaner {
    var refs := ReferencesOf(s.db.jobs, s.now);
    Cleaner(Clearing, s.now, s.db.jobs, s.now, Referenced(OutputPaths(s.db.songs)), refs.(terminalInputs := terminal),
        s.now, None)
  }

  /** Reading the tables at one moment. */
  lemma TakesSnapshot(s: State, c: nat)
    requires c !in s.cleaners
    ensures Leads(s, WithCleaner(s, c, Snapshot(s, TerminalInputs(s.db.jobs))))
  {
    var none := References({}, {}, map[]);
    var jobs := Cleaner(ListedJobs, s.now, s.db.jobs, s.now, {}, none, s.now, None);
    var outputs := jobs.(phase := ListedOutputs, referenced := Referenced(OutputPaths(s.db.songs)));
    One(s, ByCleaner(c, ListJobs), WithCleaner(s, c, jobs));
    One(WithCleaner(s, c, jobs), ByCleaner(c, ListOutputs), WithCleaner(s, c, outputs));
    Chain(s, WithCleaner(s, c, jobs), WithCleaner(s, c, outputs));
    TakesReferences(s, c, outputs);
    Chain(s, WithCleaner(s, c, outputs), WithCleaner(s, c, Snapshot(s, TerminalInputs(s.db.jobs))));
  }

  lemma TakesReferences(s: State, c: nat, me: Cleaner)
    requires me.phase.ListedOutputs?
    ensures Leads(WithCleaner(s, c, me),
      WithCleaner(s, c, me.(phase := Clearing, refs := ReferencesOf(me.rows, s.now))))
  {
    One(WithCleaner(s, c, me), ByCleaner(c, TakeSnapshot),
        WithCleaner(s, c, me.(phase := Clearing, refs := ReferencesOf(me.rows, s.now))));
  }

  lemma ClearsOne(s: State, c: nat, names: set<InputName>, name: InputName)
    requires c in s.cleaners && s.cleaners[c] == Snapshot(s, names) && name in names
    ensures Leads(s, WithCleaner(s, c, Snapshot(s, names - {name})).(inputs := s.inputs - {name}))
  {
    var me := s.cleaners[c];
    assert me.(refs := me.refs.(terminalInputs := me.refs.terminalInputs - {name})) == Snapshot(s, names - {name});
    One(s, ByCleaner(c, ReapTerminal(name, true)),
        WithCleaner(s, c, Snapshot(s, names - {name})).(inputs := s.inputs - {name}));
  }

  lemma {:induction false} ClearsTerminal(s: State, c: nat, names: set<InputName>) returns (t: State)
    requires c in s.cleaners && s.cleaners[c] == Snapshot(s, names)
    ensures Leads(s, t) && t == WithCleaner(s, c, Snapshot(s, {})).(inputs := s.inputs - names)
    decreases |names|
  {
    if names == {} {
      Stay(s);
      t := s;
      assert s.inputs - {} == s.inputs;
    } else {
      var name :| name in names;
      var mid := WithCleaner(s, c, Snapshot(s, names - {name})).(inputs := s.inputs - {name});
      ClearsOne(s, c, names, name);
      t := ClearsTerminal(mid, c, names - {name});
      Chain(s, mid, t);
      assert s.inputs - {name} - (names - {name}) == s.inputs - names;
    }
  }

  ghost function Sweeper(s: State): Cleaner {
    Snapshot(s, {}).(phase := Sweeping, cutoff := s.now - CLEANUP_INTERVAL)
  }

  /** A pass of cleanup up to its sweep: the finished jobs' inputs are gone, and the cutoff lies one interval back. */
  lemma PassBegins(s: State, c: nat) returns (t: State)
    requires c !in s.cleaners
    ensures Leads(s, t) && t == WithCleaner(s, c, Sweeper(s)).(inputs := s.inputs - TerminalInputs(s.db.jobs))
  {
    TakesSnapshot(s, c);
    var taken := WithCleaner(s, c, Snapshot(s, TerminalInputs(s.db.jobs)));
    var cleared := ClearsTerminal(taken, c, TerminalInputs(s.db.jobs));
    Chain(s, taken, cleared);
    t := WithCleaner(s, c, Sweeper(s)).(inputs := s.inputs - TerminalInputs(s.db.jobs));
    assert WithCleaner(cleared, c, cleared.cleaners[c].(phase := Sweeping, cutoff := s.now - CLEANUP_INTERVAL)) == t;
    One(cleared, ByCleaner(c, TakeCutoff), t);
    Chain(s, cleared, t);
  }

  /** From then on the pass can remove any orphan whole, one after the other, and end. */
  lemma PassRemoves(s: State, c: nat, target: Target)
    requires c in s.cleaners && s.cleaners[c].phase.Sweeping? && s.cleaners[c].pending.None?
    requires CanClean(s, c, Inspect(target))
    ensures Leads(s, match target
                     case Input(name) => WithCleaner(s, c, s.cleaners[c]).(inputs := s.inputs - {name})
                     case Work(a) => WithCleaner(s, c, s.cleaners[c]).(work := s.work - {a})
                     case Output(a) => WithCleaner(s, c, s.cleaners[c]).(songs := s.songs - {a}))
    ensures Leads(s, s.(cleaners := s.cleaners - {c}))
  {
    var picked := WithCleaner(s, c, s.cleaners[c].(pending := Some(target)));
    var t := match target
      case Input(name) => WithCleaner(s, c, s.cleaners[c]).(inputs := s.inputs - {name})
      case Work(a) => WithCleaner(s, c, s.cleaners[c]).(work := s.work - {a})
      case Output(a) => WithCleaner(s, c, s.cleaners[c]).(songs := s.songs - {a});
    One(s, ByCleaner(c, Inspect(target)), picked);
    Removes(picked, c, target, t);
    Chain(s, picked, t);
    One(s, ByCleaner(c, End), s.(cleaners := s.cleaners - {c}));
  }

  lemma Removes(s: State, c: nat, target: Target, t: State)
    requires c in s.cleaners && s.cleaners[c].phase.Sweeping? && s.cleaners[c].pending == Some(target)
      && Exists(s, target)
    requires t == match target
                  case Input(name) => WithCleaner(s, c, s.cleaners[c].(pending := None)).(inputs := s.inputs - {name})
                  case Work(a) => WithCleaner(s, c, s.cleaners[c].(pending := None)).(work := s.work - {a})
                  case Output(a) => WithCleaner(s, c, s.cleaners[c].(pending := None)).(songs := s.songs - {a})
    ensures Leads(s, t)
  {
    One(s, ByCleaner(c, Remove(None)), t);
  }
}
