/** The clock readings a cleanup pass remembers, and how one step moves it. */
module Cleaners {
  import opened Prelude
  import opened SongJobs
  import opened Snapshots
  import opened Protocol
  import opened Holders

  ghost predicate BoundsOk(b: Bounds) {
    0 <= b.idle && 0 <= b.stage && 0 <= b.attempt && 0 <= b.publish && 0 <= b.listJobs && 0 <= b.listOutputs
  }

  /** What READY audio needs: the directory of a new READY song is younger than a cleanup can find abandoned, and an
      attempt that completes was published before a cleanup could find its work directory abandoned. */
  ghost predicate KeepsAudio(b: Bounds) {
    BoundsOk(b) && b.attempt <= CLEANUP_INTERVAL && b.publish + b.listOutputs <= CLEANUP_INTERVAL
  }

  /** What live inputs need: the file of a new job is younger than a cleanup can find orphaned, and so is a file still
      written to. */
  ghost predicate KeepsInputs(b: Bounds) {
    BoundsOk(b) && b.idle <= CLEANUP_INTERVAL && b.stage + b.listJobs <= CLEANUP_INTERVAL
  }

  /** A pass lists the jobs before the outputs, picks nothing before it sweeps, and sweeps by a cutoff one interval
      back. */
  ghost predicate PassOk(s: State, c: nat) {
    c in s.cleaners ==>
      var me := s.cleaners[c];
      && me.jobsAt <= me.outputsAt <= s.now
      && (me.pending.Some? ==> me.phase.Sweeping?)
      && (me.phase.Sweeping? ==> me.cutoff <= s.now - CLEANUP_INTERVAL)
  }

  /** A cutoff lies one interval before the moment it was fixed, which was soon after both queries. */
  ghost predicate CleanerOk(b: Bounds, s: State, c: nat) {
    && PassOk(s, c)
    && (c in s.cleaners && s.cleaners[c].phase.Sweeping? ==>
          && s.cleaners[c].cutoff <= s.cleaners[c].jobsAt + b.listJobs - CLEANUP_INTERVAL
          && s.cleaners[c].cutoff <= s.cleaners[c].outputsAt + b.listOutputs - CLEANUP_INTERVAL)
  }

  predicate Removes(s: State, step: Step, t: Target) {
    step.ByCleaner? && step.cl.Remove? && step.c in s.cleaners && s.cleaners[step.c].pending == Some(t)
  }

  ghost predicate CleanerMoves(s: State, step: Step, next: State, c: nat)
    requires Can(s, step)
  {
    c in next.cleaners ==>
      if step.ByCleaner? && step.c == c then !step.cl.End? && next.cleaners[c] == CleanerAfter(s, c, step.cl)
      else c in s.cleaners && next.cleaners[c] == s.cleaners[c]
  }

  lemma StepCleaners(s: State, step: Step, c: nat)
    requires Can(s, step)
    ensures CleanerMoves(s, step, Local(s, step), c)
  {
  }

  lemma UnthreatenedKept(s: State, step: Step, next: State, t: Target)
    requires Can(s, step) && (forall c :: CleanerMoves(s, step, next, c))
    requires Unthreatened(s, t) && !(step.ByCleaner? && step.cl == Inspect(t))
    ensures Unthreatened(next, t)
  {
    forall c
      ensures NotPending(next, c, t)
    {
      assert NotPending(s, c, t) && CleanerMoves(s, step, next, c);
    }
  }

  lemma CleanerKept(b: Bounds, s: State, step: Step, next: State, c: nat)
    requires Can(s, step) && CleanerMoves(s, step, next, c) && CleanerOk(b, s, c) && Timely(b, s, step)
      && s.now <= next.now
    ensures CleanerOk(b, next, c)
  {
  }
}
