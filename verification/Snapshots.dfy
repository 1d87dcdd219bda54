/** What media cleanup reads from the database before it deletes anything. */
module Snapshots {
  import opened Prelude
  import opened SongJobs

  /** Inputs that QUEUED and RUNNING jobs still need. */
  function NeededInputs(jobs: map<SongId, Job>): set<InputName> {
    set id <- jobs | jobs[id].Live() :: jobs[id].input
  }

  /** Inputs named by SUCCEEDED and FAILED jobs. */
  function TerminalInputs(jobs: map<SongId, Job>): set<InputName> {
    set id <- jobs | !jobs[id].Live() :: jobs[id].input
  }

  /** The attempt under an unlapsed lease, for each song that has one. */
  function ActiveAttempts(jobs: map<SongId, Job>, now: Time): map<SongId, nat> {
    map id <- jobs | jobs[id].Leased(now) :: jobs[id].attemptCount
  }

  datatype References = References(inputs: set<InputName>, terminalInputs: set<InputName>, active: map<SongId, nat>)

  function ReferencesOf(jobs: map<SongId, Job>, now: Time): References {
    References(NeededInputs(jobs), TerminalInputs(jobs), ActiveAttempts(jobs, now))
  }

  function Column(path: Option<AudioPath>): set<AudioPath> {
    if path.Some? then {path.value} else {}
  }

  function PathsOf(s: Song): set<AudioPath> {
    Column(s.full) + Column(s.drums) + Column(s.bass) + Column(s.melody) + Column(s.vocals)
  }

  function OutputPaths(songs: map<SongId, Song>): set<AudioPath> {
    set id <- songs, path <- PathsOf(songs[id]) :: path
  }

  /** The output directories some song refers to. */
  function Referenced(paths: set<AudioPath>): set<Attempt> {
    set path <- paths :: path.directory
  }

  /** Cleanup skips an attempt directory of a song whose live lease is for that very attempt. */
  predicate IsActive(active: map<SongId, nat>, a: Attempt) {
    a.song in active && 0 < active[a.song] == a.number
  }
}
