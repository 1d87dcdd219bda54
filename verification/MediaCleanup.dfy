/** Store.Cleanup and CleanupMedia over directories of named entries, as loops that remove entries one at a time. */
module MediaCleanup {
  import opened Prelude
  import opened Columns
  import opened Names
  import opened SongJobs
  import opened Snapshots
  import Guarantees
  import Inputs
  import JobTable
  import Outputs
  import P = Protocol
  import Cleaners

  /** An entry of the incoming directory. */
  datatype File = File(regular: bool, mtime: Time)

  /** An entry of a song's directory. */
  datatype Entry = Entry(isDir: bool, mtime: Time)

  /** An entry of the work or songs directory. */
  datatype SongEntry = NotADirectory | SongDir(attempts: map<string, Entry>)

  /** A song's directory name and the name of an entry in it. */
  type Place = (string, string)

  // ----- What is removed -----

  predicate IsOrphanInput(needed: set<string>, cutoff: Time, name: string, file: File) {
    IsInputFile(name) && name !in needed && file.regular && file.mtime < cutoff
  }

  predicate IsOrphanAttempt(active: map<string, nat>, referenced: set<Place>, cutoff: Time, at: Place, entry: Entry) {
    && entry.isDir && ParseAttempt(at.1).Some?
    && !(at.0 in active && 0 < active[at.0] == ParseAttempt(at.1).value) && at !in referenced
    && entry.mtime < cutoff
  }

  predicate Has(area: map<string, SongEntry>, at: Place) {
    at.0 in area && area[at.0].SongDir? && at.1 in area[at.0].attempts
  }

  function EntryAt(area: map<string, SongEntry>, at: Place): Entry
    requires Has(area, at)
  {
    area[at.0].attempts[at.1]
  }

  function WithoutNames(attempts: map<string, Entry>, song: string, gone: set<Place>): map<string, Entry> {
    map name <- attempts | (song, name) !in gone :: attempts[name]
  }

  /** The area after the entries at `gone` have been removed. */
  function Without(area: map<string, SongEntry>, gone: set<Place>): map<string, SongEntry> {
    map song <- area :: if area[song].SongDir? then SongDir(WithoutNames(area[song].attempts, song, gone))
        else NotADirectory
  }

  // ----- The loops -----

  /** work or songs. */
  class Area {
    var entries: map<string, SongEntry>

    constructor (entries: map<string, SongEntry>)
      ensures this.entries == entries
    {
      this.entries := entries;
    }

    /** The inner loop of cleanupAttempts. `patience` counts the entries it looks at before its context is cancelled, if
        ever. */
    method CleanSong(song: string, active: map<string, nat>, referenced: set<Place>, cutoff: Time,
        patience: Option<nat>)
      returns (removed: set<Place>, ok: bool, left: Option<nat>)
      requires song in entries && entries[song].SongDir?
      modifies this
      ensures entries == Without(old(entries), removed)
      ensures forall at <- removed ::
        at.0 == song && Has(old(entries), at)
            && IsOrphanAttempt(active, referenced, cutoff, at, EntryAt(old(entries), at))
      ensures ok ==> forall name <- old(entries)[song].attempts ::
        IsOrphanAttempt(active, referenced, cutoff, (song, name), old(entries)[song].attempts[name]) ==>
            (song, name) in removed
      ensures patience.None? ==> ok && left.None?
    {
      var attempts := entries[song].attempts;
      var unseen := attempts.Keys;
      removed, ok, left := {}, true, patience;
      WithoutNone(entries);
      while unseen != {}
        invariant unseen <= attempts.Keys && song in entries && entries[song].SongDir?
        invariant entries == Without(old(entries), removed)
        invariant forall at <- removed ::
          at.0 == song && at.1 in attempts && at.1 !in unseen
              && IsOrphanAttempt(active, referenced, cutoff, at, attempts[at.1])
        invariant forall name <- attempts.Keys - unseen ::
          IsOrphanAttempt(active, referenced, cutoff, (song, name), attempts[name]) ==> (song, name) in removed
        invariant patience.None? ==> left.None?
        decreases |unseen|
      {
        if left == Some(0) {
          return removed, false, left;
        }
        left := if left.Some? then Some(left.value - 1) else None;
        var name :| name in unseen;
        unseen := unseen - {name};
        var entry := attempts[name];
        if IsOrphanAttempt(active, referenced, cutoff, (song, name), entry) {
          RemoveStep(old(entries), removed, (song, name));
          entries := entries[song := SongDir(entries[song].attempts - {name})];
          removed := removed + {(song, name)};
        }
      }
    }

    /** cleanupAttempts. */
    method Clean(active: map<string, nat>, referenced: set<Place>, cutoff: Time, patience: Option<nat>)
      returns (removed: set<Place>, ok: bool, left: Option<nat>)
      modifies this
      ensures entries == Without(old(entries), removed)
      ensures forall at <- removed ::
        Has(old(entries), at) && IsOrphanAttempt(active, referenced, cutoff, at, EntryAt(old(entries), at))
      ensures ok ==> entries == Cleaned(old(entries), active, referenced, cutoff)
      ensures patience.None? ==> ok && left.None?
    {
      ghost var before := entries;
      var unseen := entries.Keys;
      removed, ok, left := {}, true, patience;
      WithoutNone(entries);
      while unseen != {}
        invariant unseen <= before.Keys == entries.Keys
        invariant entries == Without(before, removed)
        invariant forall at <- removed ::
          at.0 !in unseen && Has(before, at) && IsOrphanAttempt(active, referenced, cutoff, at, EntryAt(before, at))
        invariant forall at: Place | Has(before, at) && at.0 !in unseen ::
          IsOrphanAttempt(active, referenced, cutoff, at, EntryAt(before, at)) ==> at in removed
        invariant patience.None? ==> left.None?
        decreases |unseen|
      {
        var song :| song in unseen;
        unseen := unseen - {song};
        if entries[song].SongDir? {
          ghost var prior := removed;
          assert entries[song].attempts == before[song].attempts;
          var more;
          more, ok, left := CleanSong(song, active, referenced, cutoff, left);
          removed := removed + more;
          WithoutBoth(before, prior, more);
          if !ok {
            return;
          }
        }
      }
      CleanedIsWithout(before, active, referenced, cutoff, removed);
    }
  }

  lemma WithoutNone(area: map<string, SongEntry>)
    ensures Without(area, {}) == area
  {
    forall song <- area | area[song].SongDir?
      ensures WithoutNames(area[song].attempts, song, {}) == area[song].attempts
    {
    }
  }

  lemma RemoveStep(before: map<string, SongEntry>, gone: set<Place>, at: Place)
    requires Has(before, at)
    ensures var entries := Without(before, gone);
            entries[at.0 := SongDir(entries[at.0].attempts - {at.1})] == Without(before, gone + {at})
  {
    forall song <- before | before[song].SongDir?
      ensures WithoutNames(before[song].attempts, song, gone + {at})
           == if song == at.0 then WithoutNames(before[song].attempts, song, gone) - {at.1}
               else WithoutNames(before[song].attempts, song, gone)
    {
    }
  }

  lemma WithoutBoth(before: map<string, SongEntry>, gone: set<Place>, more: set<Place>)
    ensures Without(Without(before, gone), more) == Without(before, gone + more)
  {
    forall song <- before | before[song].SongDir?
      ensures WithoutNames(before[song].attempts, song, gone + more)
           == WithoutNames(WithoutNames(before[song].attempts, song, gone), song, more)
    {
    }
  }

  // ----- The same as functions -----

  function CleanedInputs(incoming: map<string, File>, needed: set<string>, cutoff: Time): map<string, File> {
    map name <- incoming | !IsOrphanInput(needed, cutoff, name, incoming[name]) :: incoming[name]
  }

  function Cleaned(area: map<string, SongEntry>, active: map<string, nat>, referenced: set<Place>,
      cutoff: Time): map<string, SongEntry>
  {
    map song <- area ::
      if area[song].SongDir? then
        SongDir(map name <- area[song].attempts |
                  !IsOrphanAttempt(active, referenced, cutoff, (song, name), area[song].attempts[name]) ::
                  area[song].attempts[name])
      else NotADirectory
  }

  lemma CleanedIsWithout(before: map<string, SongEntry>, active: map<string, nat>, referenced: set<Place>,
      cutoff: Time, gone: set<Place>)
    requires forall at: Place | Has(before, at) ::
      IsOrphanAttempt(active, referenced, cutoff, at, EntryAt(before, at)) <==> at in gone
    ensures Without(before, gone) == Cleaned(before, active, referenced, cutoff)
  {
    forall song <- before | before[song].SongDir?
      ensures Without(before, gone)[song] == Cleaned(before, active, referenced, cutoff)[song]
    {
      forall name <- before[song].attempts
        ensures IsOrphanAttempt(active, referenced, cutoff, (song, name), before[song].attempts[name])
           <==> (song, name) in gone
      {
        assert Has(before, (song, name)) && EntryAt(before, (song, name)) == before[song].attempts[name];
      }
    }
  }

  // ----- A whole pass -----

  /** Songs' ids as text, as the work and songs directories name them. */
  ghost predicate Injective(uuid: SongId -> string) {
    forall a, b :: uuid(a) == uuid(b) ==> a == b
  }

  function InputFiles(names: set<InputName>): set<string> {
    set n <- names :: InputFile(n)
  }

  /** mediaSnapshot keys the active attempts by the songs' ids as text. */
  function ActiveNames(uuid: SongId -> string, active: map<SongId, nat>): map<string, nat>
    requires Injective(uuid)
  {
    map id <- active :: uuid(id) := active[id]
  }

  function PlaceOf(uuid: SongId -> string, a: Attempt): Place {
    (uuid(a.song), AttemptName(a.number))
  }

  function Places(uuid: SongId -> string, attempts: set<Attempt>): set<Place> {
    set a <- attempts :: PlaceOf(uuid, a)
  }

  datatype Files = Files(incoming: map<string, File>, work: map<string, SongEntry>, songs: map<string, SongEntry>)

  /** What a pass that is not cut short leaves: the lease test reads the clock at `leaseAt`, the cutoff is fixed at
      `sweepAt`. */
  ghost function FilesAfter(files: Files, db: Db, uuid: SongId -> string, leaseAt: Time, sweepAt: Time): Files
    requires Injective(uuid)
  {
    var refs, cutoff := ReferencesOf(db.jobs, leaseAt), sweepAt - P.CLEANUP_INTERVAL;
    Files(
      CleanedInputs(files.incoming - InputFiles(refs.terminalInputs), InputFiles(refs.inputs), cutoff),
      Cleaned(files.work, ActiveNames(uuid, refs.active), {}, cutoff),
      Cleaned(files.songs, ActiveNames(uuid, refs.active), Places(uuid, Referenced(OutputPaths(db.songs))), cutoff))
  }

  class MediaStore {
    var incoming: map<string, File>
    const work: Area
    const songs: Area

    ghost predicate Valid() {
      work != songs
    }

    ghost function View(): Files
      reads this, work, songs
    {
      Files(incoming, work.entries, songs.entries)
    }

    constructor (incoming: map<string, File>, work: map<string, SongEntry>, songs: map<string, SongEntry>)
      ensures Valid() && View() == Files(incoming, work, songs) && fresh(this.work) && fresh(this.songs)
    {
      this.incoming := incoming;
      this.work := new Area(work);
      this.songs := new Area(songs);
    }

    /** cleanupIncoming. */
    method CleanIncoming(needed: set<string>, cutoff: Time, patience: Option<nat>)
      returns (removed: set<string>, ok: bool, left: Option<nat>)
      modifies this`incoming
      ensures incoming == old(incoming) - removed
      ensures forall name <- removed ::
        name in old(incoming) && IsOrphanInput(needed, cutoff, name, old(incoming)[name])
      ensures ok ==> incoming == CleanedInputs(old(incoming), needed, cutoff)
      ensures patience.None? ==> ok && left.None?
    {
      ghost var before := incoming;
      var unseen := incoming.Keys;
      removed, ok, left := {}, true, patience;
      while unseen != {}
        invariant unseen <= incoming.Keys && incoming == before - removed
        invariant forall name <- removed ::
          name !in unseen && name in before && IsOrphanInput(needed, cutoff, name, before[name])
        invariant forall name <- before.Keys - unseen :: IsOrphanInput(needed, cutoff, name, before[name]) ==>
          name in removed
        invariant patience.None? ==> left.None?
        decreases |unseen|
      {
        if left == Some(0) {
          return removed, false, left;
        }
        left := if left.Some? then Some(left.value - 1) else None;
        var name :| name in unseen;
        unseen := unseen - {name};
        if IsOrphanInput(needed, cutoff, name, incoming[name]) {
          incoming := incoming - {name};
          removed := removed + {name};
        }
      }
    }

    /** The first loop of CleanupMedia: removeInput for every terminal job. */
    method RemoveTerminal(names: set<InputName>)
      modifies this`incoming
      ensures incoming == old(incoming) - InputFiles(names)
    {
      var unseen := names;
      while unseen != {}
        invariant unseen <= names && incoming == old(incoming) - InputFiles(names - unseen)
        decreases |unseen|
      {
        var name :| name in unseen;
        assert InputFiles(names - (unseen - {name})) == InputFiles(names - unseen) + {InputFile(name)};
        unseen := unseen - {name};
        incoming := incoming - {InputFile(name)};
      }
      assert names - unseen == names;
    }

    /** Store.Cleanup: incoming, then work, then songs; the first interruption ends the pass. */
    method Cleanup(needed: set<string>, active: map<string, nat>, referenced: set<Place>, cutoff: Time,
        patience: Option<nat>)
      returns (ok: bool)
      requires Valid()
      modifies this`incoming, work, songs
      ensures ok ==> View() == Files(
        CleanedInputs(old(incoming), needed, cutoff),
        Cleaned(old(work.entries), active, {}, cutoff),
        Cleaned(old(songs.entries), active, referenced, cutoff))
      ensures Spares(old(View()), View(), needed, active, referenced, cutoff)
      // No area is touched before the one before it is done.
      ensures work.entries != old(work.entries) ==> incoming == CleanedInputs(old(incoming), needed, cutoff)
      ensures songs.entries != old(songs.entries) ==>
        work.entries == Cleaned(old(work.entries), active, {}, cutoff)
        && incoming == CleanedInputs(old(incoming), needed, cutoff)
      ensures patience.None? ==> ok
    {
      var inputs, attempts, left;
      WithoutNone(work.entries);
      WithoutNone(songs.entries);
      inputs, ok, left := CleanIncoming(needed, cutoff, patience);
      if ok {
        attempts, ok, left := work.Clean(active, {}, cutoff, left);
        if ok {
          attempts, ok, left := songs.Clean(active, referenced, cutoff, left);
        }
      }
    }
  }

  /** Nothing but orphans is gone, and what is left is unchanged. */
  ghost predicate Spares(before: Files, after: Files, needed: set<string>, active: map<string, nat>,
      referenced: set<Place>, cutoff: Time)
  {
    && after.incoming.Keys <= before.incoming.Keys && after.work.Keys == before.work.Keys
        && after.songs.Keys == before.songs.Keys
    && (forall name <- before.incoming ::
          if name in after.incoming then after.incoming[name] == before.incoming[name]
          else IsOrphanInput(needed, cutoff, name, before.incoming[name]))
    && (forall at: Place | Has(before.work, at) ::
          if Has(after.work, at) then EntryAt(after.work, at) == EntryAt(before.work, at)
          else IsOrphanAttempt(active, {}, cutoff, at, EntryAt(before.work, at)))
    && (forall at: Place | Has(before.songs, at) ::
          if Has(after.songs, at) then EntryAt(after.songs, at) == EntryAt(before.songs, at)
          else IsOrphanAttempt(active, referenced, cutoff, at, EntryAt(before.songs, at)))
  }

  /** CleanupMedia, given what its two queries returned. */
  method CleanupMedia(store: MediaStore, db: Db, uuid: SongId -> string, leaseAt: Time, sweepAt: Time,
      patience: Option<nat>)
    returns (ok: bool)
    requires store.Valid() && Injective(uuid)
    modifies store`incoming, store.work, store.songs
    ensures ok ==> store.View() == FilesAfter(old(store.View()), db, uuid, leaseAt, sweepAt)
    ensures patience.None? ==> ok
    ensures var before := old(store.View());
            Spares(before.(incoming := before.incoming - InputFiles(TerminalInputs(db.jobs))), store.View(),
                   InputFiles(NeededInputs(db.jobs)), ActiveNames(uuid, ActiveAttempts(db.jobs, leaseAt)),
                   Places(uuid, Referenced(OutputPaths(db.songs))), sweepAt - P.CLEANUP_INTERVAL)
  {
    var refs := JobTable.JobReferences(db.jobs, leaseAt);
    var outputs := JobTable.OutputReferences(db.songs);
    store.RemoveTerminal(refs.terminalInputs);
    ok := store.Cleanup(InputFiles(refs.inputs), ActiveNames(uuid, refs.active), Places(uuid, Referenced(outputs)),
        sweepAt - P.CLEANUP_INTERVAL, patience);
  }

  // ----- What is never touched -----

  /** A pass removes from the incoming directory exactly the finished jobs' inputs, and the old regular files named
      song-*.mp3 that no live job needs. */
  lemma RemovedInputsExactly(files: Files, db: Db, uuid: SongId -> string, leaseAt: Time, sweepAt: Time, name: string)
    requires Injective(uuid) && name in files.incoming
    ensures var file, kept := files.incoming[name], FilesAfter(files, db, uuid, leaseAt, sweepAt).incoming;
      && (name in kept ==> kept[name] == file)
      && (name !in kept <==>
            || (exists id <- db.jobs ::
                  name == InputFile(db.jobs[id].input)
                      && (db.jobs[id].state == Succeeded || db.jobs[id].state == Failed))
            || (&& 5 <= |name| && name[..5] == "song-" && name[|name| - 4..] == ".mp3"
                && file.regular && file.mtime < sweepAt - 60 * MINUTE
                && !(exists id <- db.jobs ::
                       name == InputFile(db.jobs[id].input)
                           && (db.jobs[id].state == Queued || db.jobs[id].state == Running))))
  {
    InputFilesExactly(name);
    FinishedFiles(db.jobs, name);
    NeededFiles(db.jobs, name);
  }

  lemma FinishedFiles(jobs: map<SongId, Job>, name: string)
    ensures name in InputFiles(TerminalInputs(jobs)) <==>
      exists id <- jobs ::
        name == InputFile(jobs[id].input) && (jobs[id].state == Succeeded || jobs[id].state == Failed)
  {
  }

  lemma NeededFiles(jobs: map<SongId, Job>, name: string)
    ensures name in InputFiles(NeededInputs(jobs)) <==>
      exists id <- jobs :: name == InputFile(jobs[id].input) && (jobs[id].state == Queued || jobs[id].state == Running)
  {
  }

  /** An entry of a song's directory is an orphan exactly if it is an old directory whose name stands for an attempt
      that is neither active nor referenced. */
  lemma OrphansExactly(active: map<string, nat>, referenced: set<Place>, cutoff: Time, at: Place, entry: Entry)
    ensures IsOrphanAttempt(active, referenced, cutoff, at, entry) <==>
      && entry.isDir && entry.mtime < cutoff && at !in referenced
      && exists number: nat :: Stands(at.1, number) && !(at.0 in active && active[at.0] == number && 1 <= number)
  {
    forall number: nat
      ensures Stands(at.1, number) <==> ParseAttempt(at.1) == Some(number)
    {
      RecognisedExactly(at.1, number);
    }
    if ParseAttempt(at.1).Some? {
      assert Stands(at.1, ParseAttempt(at.1).value);
    }
  }

  /** The attempt is RUNNING under an unlapsed lease. */
  ghost predicate IsUnderway(jobs: map<SongId, Job>, uuid: SongId -> string, now: Time, song: string, number: nat) {
    exists id <- jobs ::
      uuid(id) == song && 1 <= number && IsHeld(jobs, Attempt(id, number)) && OutlastsNow(jobs[id], now)
  }

  /** Some song's path column names a file in the directory. */
  ghost predicate IsNamed(songs: map<SongId, Song>, uuid: SongId -> string, at: Place) {
    exists id <- songs, path: AudioPath :: IsColumnOf(songs[id], path) && PlaceOf(uuid, path.directory) == at
  }

  /** The directory is old, and its name stands for an attempt that is not underway. */
  ghost predicate IsAbandoned(db: Db, uuid: SongId -> string, leaseAt: Time, sweepAt: Time, at: Place, entry: Entry) {
    && entry.isDir && entry.mtime < sweepAt - 60 * MINUTE
    && exists number: nat :: Stands(at.1, number) && !IsUnderway(db.jobs, uuid, leaseAt, at.0, number)
  }

  /** A pass removes exactly the abandoned work directories, and the abandoned output directories that no song names. */
  lemma RemovedAttemptsExactly(files: Files, db: Db, uuid: SongId -> string, leaseAt: Time, sweepAt: Time, at: Place)
    requires Injective(uuid)
    ensures var after := FilesAfter(files, db, uuid, leaseAt, sweepAt);
      && (Has(files.work, at) ==>
            if IsAbandoned(db, uuid, leaseAt, sweepAt, at, EntryAt(files.work, at)) then !Has(after.work, at)
            else Has(after.work, at) && EntryAt(after.work, at) == EntryAt(files.work, at))
      && (Has(files.songs, at) ==>
            if && IsAbandoned(db, uuid, leaseAt, sweepAt, at, EntryAt(files.songs, at))
               && !IsNamed(db.songs, uuid, at)
            then !Has(after.songs, at)
            else Has(after.songs, at) && EntryAt(after.songs, at) == EntryAt(files.songs, at))
  {
    var active, cutoff := ActiveNames(uuid, ActiveAttempts(db.jobs, leaseAt)), sweepAt - P.CLEANUP_INTERVAL;
    var referenced := Places(uuid, Referenced(OutputPaths(db.songs)));
    forall number: nat {
      UnderwayIsActive(db.jobs, uuid, leaseAt, at.0, number);
    }
    NamedIsReferenced(db.songs, uuid, at);
    if Has(files.work, at) {
      OrphansExactly(active, {}, cutoff, at, EntryAt(files.work, at));
    }
    if Has(files.songs, at) {
      OrphansExactly(active, referenced, cutoff, at, EntryAt(files.songs, at));
    }
  }

  lemma UnderwayIsActive(jobs: map<SongId, Job>, uuid: SongId -> string, now: Time, song: string, number: nat)
    requires Injective(uuid)
    ensures var active := ActiveNames(uuid, ActiveAttempts(jobs, now));
      IsUnderway(jobs, uuid, now, song, number) <==> song in active && active[song] == number && 1 <= number
  {
  }

  lemma NamedIsReferenced(songs: map<SongId, Song>, uuid: SongId -> string, at: Place)
    ensures IsNamed(songs, uuid, at) <==> at in Places(uuid, Referenced(OutputPaths(songs)))
  {
    forall path {
      PathsOnColumns(songs, path);
    }
    if at in Places(uuid, Referenced(OutputPaths(songs))) {
      var path :| path in OutputPaths(songs) && PlaceOf(uuid, path.directory) == at;
      assert exists id <- songs :: IsColumnOf(songs[id], path);
    }
    if IsNamed(songs, uuid, at) {
      var id, path: AudioPath :| id in songs && IsColumnOf(songs[id], path) && PlaceOf(uuid, path.directory) == at;
      assert path in OutputPaths(songs) && path.directory in Referenced(OutputPaths(songs));
    }
  }

  // ----- The names and the state machine -----

  /** The loops pick a file or directory with the name the system gives it just when the state machine lets its cleanup
      pick it. */
  lemma SweepGuardsAgree(s: P.State, c: nat, t: P.Target, uuid: SongId -> string)
    requires c in s.cleaners && s.cleaners[c].phase.Sweeping? && s.cleaners[c].pending.None? && P.Exists(s, t)
      && Injective(uuid)
    requires !t.Input? ==> t.attempt.number <= MAX_INT32
    ensures var me := s.cleaners[c];
      P.CanClean(s, c, P.Inspect(t)) <==>
        match t
        case Input(name) =>
          IsOrphanInput(InputFiles(me.refs.inputs), me.cutoff, InputFile(name), File(true, s.inputs[name]))
        case Work(a) =>
          IsOrphanAttempt(ActiveNames(uuid, me.refs.active), Places(uuid, {}), me.cutoff,
                          PlaceOf(uuid, a), Entry(true, s.work[a].mtime))
        case Output(a) =>
          IsOrphanAttempt(ActiveNames(uuid, me.refs.active), Places(uuid, me.referenced), me.cutoff,
                          PlaceOf(uuid, a), Entry(true, s.songs[a].mtime))
  {
    var me := s.cleaners[c];
    match t
    case Input(name) =>
      InputGuard(me.refs.inputs, me.cutoff, name, s.inputs[name]);
    case Work(a) =>
      AttemptGuard(uuid, me.refs.active, {}, me.cutoff, a, s.work[a].mtime);
    case Output(a) =>
      AttemptGuard(uuid, me.refs.active, me.referenced, me.cutoff, a, s.songs[a].mtime);
  }

  lemma InputGuard(inputs: set<InputName>, cutoff: Time, name: InputName, mtime: Time)
    ensures IsOrphanInput(InputFiles(inputs), cutoff, InputFile(name), File(true, mtime))
       <==> name !in inputs && mtime < cutoff
  {
    InputFilesAreRecognised(name, name);
    FileIsNeeded(inputs, name);
  }

  lemma AttemptGuard(uuid: SongId -> string, active: map<SongId, nat>, referenced: set<Attempt>, cutoff: Time,
      a: Attempt, mtime: Time)
    requires Injective(uuid) && a.number <= MAX_INT32
    ensures IsOrphanAttempt(ActiveNames(uuid, active), Places(uuid, referenced), cutoff, PlaceOf(uuid, a),
      Entry(true, mtime))
       <==> !IsActive(active, a) && a !in referenced && mtime < cutoff
  {
    AttemptNameRoundTrips(a.number);
    if a.song in active {
      assert uuid(a.song) in ActiveNames(uuid, active);
    }
    PlaceIsIn(uuid, referenced, a);
  }

  lemma FileIsNeeded(names: set<InputName>, name: InputName)
    ensures InputFile(name) in InputFiles(names) <==> name in names
  {
    if InputFile(name) in InputFiles(names) {
      var other :| other in names && InputFile(other) == InputFile(name);
      InputFilesAreRecognised(name, other);
    }
  }

  lemma PlaceIsIn(uuid: SongId -> string, attempts: set<Attempt>, a: Attempt)
    requires Injective(uuid)
    ensures PlaceOf(uuid, a) in Places(uuid, attempts) <==> a in attempts
  {
    if PlaceOf(uuid, a) in Places(uuid, attempts) {
      var other :| other in attempts && PlaceOf(uuid, other) == PlaceOf(uuid, a);
      AttemptNamesDiffer(a.number, other.number);
    }
  }

  // ----- Quiescence -----

  /** The files in incoming that cleanup takes for staged inputs. */
  function RecognisedInputs(incoming: map<string, File>): set<string> {
    set name <- incoming | IsInputFile(name) && incoming[name].regular
  }

  predicate IsAttempt(area: map<string, SongEntry>, at: Place) {
    Has(area, at) && EntryAt(area, at).isDir && ParseAttempt(at.1).Some?
  }

  /** The output directories of the songs that are READY. */
  function ReadyPlaces(jobs: map<SongId, Job>, uuid: SongId -> string): set<Place> {
    set id <- jobs | jobs[id].state.Succeeded? :: PlaceOf(uuid, Attempt(id, jobs[id].attemptCount))
  }

  /** Everything that could be swept is older than the cutoff. */
  ghost predicate IsOlder(files: Files, cutoff: Time) {
    && (forall name <- files.incoming :: files.incoming[name].mtime < cutoff)
    && (forall at: Place | Has(files.work, at) :: EntryAt(files.work, at).mtime < cutoff)
    && (forall at: Place | Has(files.songs, at) :: EntryAt(files.songs, at).mtime < cutoff)
  }

  /** What the protocol maintains: live inputs and READY outputs are there, and no live job shares its input's name with
      a finished one. */
  ghost predicate IsSound(files: Files, db: Db, uuid: SongId -> string) {
    && (forall name <- NeededInputs(db.jobs) :: InputFile(name) in RecognisedInputs(files.incoming))
    && (forall at <- ReadyPlaces(db.jobs, uuid) :: IsAttempt(files.songs, at))
    && NeededInputs(db.jobs) !! TerminalInputs(db.jobs)
  }

  lemma ReferencedPlaces(db: Db, uuid: SongId -> string)
    requires Consistent(db)
    ensures Places(uuid, Referenced(OutputPaths(db.songs))) == ReadyPlaces(db.jobs, uuid)
  {
    forall a: Attempt
      ensures a in Referenced(OutputPaths(db.songs))
         <==> a.song in db.jobs && db.jobs[a.song].state.Succeeded? && db.jobs[a.song].attemptCount == a.number
    {
      Outputs.ReferencedIsReady(db, a);
      assert RowOk(db, a.song);
    }
    var left, right := Places(uuid, Referenced(OutputPaths(db.songs))), ReadyPlaces(db.jobs, uuid);
    forall at <- left
      ensures at in right
    {
      var a :| a in Referenced(OutputPaths(db.songs)) && PlaceOf(uuid, a) == at;
      assert a == Attempt(a.song, db.jobs[a.song].attemptCount);
    }
    forall at <- right
      ensures at in left
    {
      var id :| id in db.jobs && db.jobs[id].state.Succeeded?
          && PlaceOf(uuid, Attempt(id, db.jobs[id].attemptCount)) == at;
      assert Attempt(id, db.jobs[id].attemptCount) in Referenced(OutputPaths(db.songs));
    }
  }

  /** When nothing is in progress and every file is old, one pass makes the media a function of the tables. */
  lemma QuiescentCleanup(files: Files, db: Db, uuid: SongId -> string, leaseAt: Time, sweepAt: Time)
    requires Consistent(db) && Injective(uuid) && IsSound(files, db, uuid)
    requires IsOlder(files, sweepAt - P.CLEANUP_INTERVAL) && forall id <- db.jobs :: !db.jobs[id].Leased(leaseAt)
    ensures var after := FilesAfter(files, db, uuid, leaseAt, sweepAt);
            && RecognisedInputs(after.incoming) == InputFiles(NeededInputs(db.jobs))
            && (forall at: Place :: IsAttempt(after.songs, at) <==> at in ReadyPlaces(db.jobs, uuid))
            && (forall at: Place :: !IsAttempt(after.work, at))
  {
    var cutoff := sweepAt - P.CLEANUP_INTERVAL;
    ReferencedPlaces(db, uuid);
    assert ActiveAttempts(db.jobs, leaseAt) == map[];
    assert ActiveNames(uuid, map[]) == map[];
    InputsAreExact(files.incoming, db, cutoff);
    AreaIsExact(files.work, {}, cutoff);
    AreaIsExact(files.songs, ReadyPlaces(db.jobs, uuid), cutoff);
  }

  lemma InputsAreExact(incoming: map<string, File>, db: Db, cutoff: Time)
    requires forall name <- NeededInputs(db.jobs) :: InputFile(name) in RecognisedInputs(incoming)
    requires NeededInputs(db.jobs) !! TerminalInputs(db.jobs)
    requires forall name <- incoming :: incoming[name].mtime < cutoff
    ensures RecognisedInputs(CleanedInputs(incoming - InputFiles(TerminalInputs(db.jobs)),
      InputFiles(NeededInputs(db.jobs)), cutoff))
         == InputFiles(NeededInputs(db.jobs))
  {
    forall name <- InputFiles(NeededInputs(db.jobs))
      ensures name in RecognisedInputs(incoming) && name !in InputFiles(TerminalInputs(db.jobs))
    {
      var n :| n in NeededInputs(db.jobs) && InputFile(n) == name;
      FileIsNeeded(TerminalInputs(db.jobs), n);
    }
  }

  lemma AreaIsExact(area: map<string, SongEntry>, referenced: set<Place>, cutoff: Time)
    requires forall at: Place | Has(area, at) :: EntryAt(area, at).mtime < cutoff
    ensures forall at: Place ::
      IsAttempt(Cleaned(area, map[], referenced, cutoff), at) <==> IsAttempt(area, at) && at in referenced
  {
    forall at: Place
      ensures IsAttempt(Cleaned(area, map[], referenced, cutoff), at) <==> IsAttempt(area, at) && at in referenced
    {
      if Has(area, at) {
        assert EntryAt(area, at).mtime < cutoff;
      }
    }
  }

  /** A second pass, whenever it comes, removes nothing. */
  lemma SecondPassRemovesNothing(files: Files, db: Db, uuid: SongId -> string, leaseAt: Time, sweepAt: Time,
      leaseAgain: Time, sweepAgain: Time)
    requires Consistent(db) && Injective(uuid) && IsSound(files, db, uuid)
    requires IsOlder(files, sweepAt - P.CLEANUP_INTERVAL) && forall id <- db.jobs :: !db.jobs[id].Leased(leaseAt)
    ensures var after := FilesAfter(files, db, uuid, leaseAt, sweepAt);
            FilesAfter(after, db, uuid, leaseAgain, sweepAgain) == after
  {
    var after := FilesAfter(files, db, uuid, leaseAt, sweepAt);
    var again := FilesAfter(after, db, uuid, leaseAgain, sweepAgain);
    QuiescentCleanup(files, db, uuid, leaseAt, sweepAt);
    ReferencedPlaces(db, uuid);
    assert again.incoming == after.incoming;
    SameArea(after.work, ActiveNames(uuid, ActiveAttempts(db.jobs, leaseAgain)), {}, sweepAgain - P.CLEANUP_INTERVAL);
    SameArea(after.songs, ActiveNames(uuid, ActiveAttempts(db.jobs, leaseAgain)), ReadyPlaces(db.jobs, uuid),
        sweepAgain - P.CLEANUP_INTERVAL);
  }

  lemma SameArea(area: map<string, SongEntry>, active: map<string, nat>, referenced: set<Place>, cutoff: Time)
    requires forall at: Place | IsAttempt(area, at) :: at in referenced
    ensures Cleaned(area, active, referenced, cutoff) == area
  {
    forall song <- area, name <- if area[song].SongDir? then area[song].attempts.Keys else {}
      ensures !IsOrphanAttempt(active, referenced, cutoff, (song, name), area[song].attempts[name])
    {
      assert Has(area, (song, name)) && EntryAt(area, (song, name)) == area[song].attempts[name];
    }
    forall song <- area | area[song].SongDir?
      ensures Cleaned(area, active, referenced, cutoff)[song].attempts == area[song].attempts
    {
    }
  }

  /** Whatever else is going on, a pass spares a live job's input just when no finished job names the same file. */
  lemma SharedInputIsRemoved(files: Files, db: Db, uuid: SongId -> string, leaseAt: Time, sweepAt: Time, id: SongId)
    requires Injective(uuid) && id in db.jobs && db.jobs[id].Live() && InputFile(db.jobs[id].input) in files.incoming
    ensures InputFile(db.jobs[id].input) in FilesAfter(files, db, uuid, leaseAt, sweepAt).incoming
       <==> forall other <- db.jobs :: !db.jobs[other].Live() ==> db.jobs[other].input != db.jobs[id].input
  {
    var name := db.jobs[id].input;
    FileIsNeeded(TerminalInputs(db.jobs), name);
    FileIsNeeded(NeededInputs(db.jobs), name);
    assert name in NeededInputs(db.jobs);
  }

  /** The directories hold at least what the state machine says is there. */
  ghost predicate Shows(files: Files, s: P.State, uuid: SongId -> string) {
    && (forall name <- s.inputs :: InputFile(name) in files.incoming && files.incoming[InputFile(name)].regular)
    && (forall a <- s.songs :: Has(files.songs, PlaceOf(uuid, a)) && EntryAt(files.songs, PlaceOf(uuid, a)).isDir)
  }

  /** Every state of every timely run is sound, so a pass over a quiet one leaves what QuiescentCleanup says. */
  lemma RunsAreSound(b: P.Bounds, ss: seq<P.State>, steps: seq<P.Step>, i: nat, files: Files, uuid: SongId -> string)
    requires P.IsTimelyRun(b, ss, steps) && i < |ss| && Shows(files, ss[i], uuid)
    requires Cleaners.KeepsAudio(b) && Cleaners.KeepsInputs(b)
    ensures Consistent(ss[i].db) && IsSound(files, ss[i].db, uuid)
  {
    var db := ss[i].db;
    Guarantees.HoldAlways(ss, steps, i);
    Guarantees.InAlways(b, ss, steps, i);
    forall id <- db.jobs | db.jobs[id].Live()
      ensures InputFile(db.jobs[id].input) in RecognisedInputs(files.incoming)
    {
      Guarantees.LiveInputIsNeverDeleted(b, ss, steps, i, id);
      InputFilesAreRecognised(db.jobs[id].input, db.jobs[id].input);
    }
    forall id <- db.jobs | db.jobs[id].state.Succeeded?
      ensures IsAttempt(files.songs, PlaceOf(uuid, Attempt(id, db.jobs[id].attemptCount)))
    {
      assert RowOk(db, id);
      Guarantees.ReadyAudioIsNeverLost(b, ss, steps, i, i, id);
      AttemptNameRoundTrips(db.jobs[id].attemptCount);
    }
    forall id <- db.jobs, other <- db.jobs | db.jobs[id].Live() && !db.jobs[other].Live()
      ensures db.jobs[id].input != db.jobs[other].input
    {
      assert Inputs.JobsDiffer(ss[i], id, other);
    }
  }
}
