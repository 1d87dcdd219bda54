/** An upload from its form to its committed job: the staged file and the transaction, kept consistent by a deferred
    removal. */
module Upload {
  import opened Prelude
  import opened SongJobs
  import JobTable
  import MediaCleanup
  import Names
  import Snapshots
  import P = Protocol

  const MAX_SONG_FILE_BYTES: nat := 31_457_280
  const MIN_CLIP_SECONDS: real := 12.0
  const TOLERANCE: real := 0.05
  const MAX_INT32: int := 0x7fff_ffff

  // ----- What arrives, and what can go wrong -----

  /** A submitted text, trimmed of white space, and whether it is valid UTF-8. */
  datatype Text = Text(valid: bool, runes: string)

  /** The parsed form: `declared` is the size the multipart header claims; for each name it holds every value submitted
      under it, for `clipStart` the finite numbers these parse to. */
  datatype Form = Form(
    files: nat, declared: nat, title: seq<Text>, artist: seq<Text>, genre: seq<Text>, clipStart: seq<Option<real>>)

  /** The staged file: the name CreateTemp draws, how much io.Copy moves (it stops one byte past the limit), and which
      calls succeed. */
  datatype Disk = Disk(createOk: bool, name: InputName, offered: nat, copyOk: bool, syncOk: bool, closeOk: bool)
  {
    function Copied(): nat {
      Min(offered, MAX_SONG_FILE_BYTES + 1)
    }
  }

  /** ffprobe: it could not run, it rejected the file, or it printed a report. */
  datatype Probe =
    | CouldNotRun
    | Rejected
    | Report(duration: Option<real>, formats: seq<string>, streams: seq<(string, string)>)

  datatype Commit = Committed | RolledBack | Unknown(applied: bool)

  datatype Transaction = Transaction(beginOk: bool, createOk: bool, scanOk: bool, enqueueOk: bool, commit: Commit)
  {
    predicate Reached() {
      beginOk && createOk && scanOk && enqueueOk
    }

    /** The rows are there, whatever the client was told. */
    predicate Applied() {
      Reached() && (commit.Committed? || (commit.Unknown? && commit.applied))
    }

    predicate InDoubt() {
      Reached() && commit.Unknown?
    }
  }

  datatype Staged = Staged(name: InputName, seconds: int, clipStart: real)

  datatype Status = Accepted | BadRequest | TooLarge | Internal

  // ----- probeMP3Duration -----

  predicate IsMP3(p: Probe) {
    && p.Report? && p.duration.Some? && 0.0 < p.duration.value
    && "mp3" in p.formats && ("audio", "mp3") in p.streams
  }

  method ProbeDuration(p: Probe) returns (duration: Option<real>)
    requires !p.CouldNotRun?
    ensures duration == if IsMP3(p) then p.duration else None
    ensures duration.Some? <==>
      && p.Report? && p.duration.Some? && 0.0 < p.duration.value
      && (exists i :: 0 <= i < |p.formats| && p.formats[i] == "mp3")
      && (exists i :: 0 <= i < |p.streams| && p.streams[i].0 == "audio" && p.streams[i].1 == "mp3")
    ensures duration.Some? ==> duration == p.duration
  {
    if p.Rejected? || p.duration.None? || p.duration.value <= 0.0 {
      return None;
    }
    var validFormat := false;
    for i := 0 to |p.formats|
      invariant validFormat == ("mp3" in p.formats[..i])
    {
      if p.formats[i] == "mp3" {
        validFormat := true;
        break;
      }
    }
    var validStream := false;
    for i := 0 to |p.streams|
      invariant validStream == (("audio", "mp3") in p.streams[..i])
    {
      if p.streams[i] == ("audio", "mp3") {
        validStream := true;
        break;
      }
    }
    duration := if validFormat && validStream then p.duration else None;
  }

  // ----- receiveSongUpload -----

  /** The value of a field that was submitted exactly once. */
  function Field<T>(values: seq<T>): Option<T> {
    if |values| == 1 then Some(values[0]) else None
  }

  /** validSongField. */
  predicate ValidSongField(value: Text, maxRunes: nat) {
    value.valid && '\0' !in value.runes && 0 < |value.runes| <= maxRunes
  }

  predicate IsField(values: seq<Text>, maxRunes: nat) {
    Field(values).Some? && ValidSongField(Field(values).value, maxRunes)
  }

  /** The clip start, if the form has exactly one and it is a number from zero on. */
  function ClipStart(form: Form): Option<real> {
    var start := Field(form.clipStart);
    if start.Some? && start.value.Some? && 0.0 <= start.value.value then start.value else None
  }

  predicate FormOk(form: Form) {
    && form.files == 1 && 0 < form.declared <= MAX_SONG_FILE_BYTES
    && IsField(form.title, 255) && IsField(form.artist, 255) && IsField(form.genre, 50)
    && ClipStart(form).Some?
  }

  predicate DiskOk(disk: Disk) {
    disk.createOk && disk.copyOk && disk.syncOk && disk.closeOk
  }

  /** At least twelve seconds of a real MP3 from the chosen start on. */
  predicate ClipFits(form: Form, p: Probe)
    requires ClipStart(form).Some?
  {
    && IsMP3(p) && p.duration.value <= MAX_INT32 as real
    && MIN_CLIP_SECONDS - TOLERANCE <= p.duration.value - ClipStart(form).value
  }

  predicate Acceptable(form: Form, disk: Disk, p: Probe) {
    FormOk(form) && DiskOk(disk) && disk.offered <= MAX_SONG_FILE_BYTES && ClipFits(form, p)
  }

  /** The file stays if it cannot be removed, or if the upload reached a commit that is not known to have failed. */
  predicate LeavesFile(form: Form, disk: Disk, p: Probe, tx: Transaction, removable: bool) {
    && FormOk(form) && disk.createOk
    && (!removable || (Acceptable(form, disk, p) && tx.Reached() && !tx.commit.RolledBack?))
  }

  class Uploads {
    const table: JobTable.Table
    /** The sizes of the files in the incoming directory. */
    var incoming: map<InputName, nat>

    constructor (table: JobTable.Table, incoming: map<InputName, nat>)
      ensures this.table == table && this.incoming == incoming
    {
      this.table, this.incoming := table, incoming;
    }

    /** RemoveInput; `works` is false when the file system refuses. */
    method RemoveInput(name: InputName, works: bool)
      modifies this`incoming
      ensures incoming == if works then old(incoming) - {name} else old(incoming)
    {
      if works {
        incoming := incoming - {name};
      }
    }

    method Receive(form: Form, disk: Disk, p: Probe, removable: bool) returns (staged: Option<Staged>, status: Status)
      requires disk.name !in incoming
      modifies this`incoming
      ensures staged.Some? <==> Acceptable(form, disk, p)
      ensures status.Accepted? <==> staged.Some?
      ensures staged.Some? ==>
        && incoming == old(incoming)[disk.name := disk.offered] && staged.value.name == disk.name
        && 1 <= staged.value.seconds <= MAX_INT32 && [Some(staged.value.clipStart)] == form.clipStart
        && staged.value.seconds as real - 0.5 <= p.duration.value < staged.value.seconds as real + 0.5
      // What an accepted upload has, field by field.
      ensures staged.Some? ==>
        && |form.title| == |form.artist| == |form.genre| == |form.clipStart| == 1
        && (forall text <- form.title + form.artist + form.genre ::
              text.valid && (forall k :: 0 <= k < |text.runes| ==> text.runes[k] != '\0') && 1 <= |text.runes| <= 255)
        && |form.genre[0].runes| <= 50
        && form.files == 1 && 0 < form.declared <= 30 * 1024 * 1024 && disk.offered <= 30 * 1024 * 1024
        && 0.0 <= staged.value.clipStart && 12.0 - 0.05 <= p.duration.value - staged.value.clipStart
      // And what a refused one lacks.
      ensures staged.None? ==>
        || !DiskOk(disk) || form.files != 1 || form.declared == 0 || 30 * 1024 * 1024 < form.declared
        || 30 * 1024 * 1024 < disk.offered || !IsMP3(p) || 2147483647.0 < p.duration.value
        || !(|form.title| == |form.artist| == |form.genre| == |form.clipStart| == 1)
        || form.clipStart[0].None? || form.clipStart[0].value < 0.0
        || p.duration.value - form.clipStart[0].value + 0.05 < 12.0
        || (exists text <- form.title + form.artist + form.genre ::
              !text.valid || '\0' in text.runes || text.runes == [] || 255 < |text.runes|)
        || 50 < |form.genre[0].runes|
      ensures staged.None? ==>
        incoming == if FormOk(form) && disk.createOk && !removable then old(incoming)[disk.name := disk.Copied()]
                    else old(incoming)
      ensures status.Internal? <==>
        FormOk(form) && (!disk.createOk || !disk.copyOk
                         || (disk.offered <= MAX_SONG_FILE_BYTES && (!disk.syncOk || !disk.closeOk || p.CouldNotRun?)))
      // Too large by the header's word, or by what arrived.
      ensures status.TooLarge? <==>
        || (form.files == 1 && 30 * 1024 * 1024 < form.declared)
        || (FormOk(form) && disk.createOk && disk.copyOk && 30 * 1024 * 1024 < disk.offered)
    {
      if form.files != 1 || form.declared == 0 {
        return None, BadRequest;
      }
      if MAX_SONG_FILE_BYTES < form.declared {
        return None, TooLarge;
      }
      var title, artist, genre, clipText := Field(form.title), Field(form.artist), Field(form.genre),
          Field(form.clipStart);
      if title.None? || artist.None? || genre.None? || clipText.None?
         || !ValidSongField(title.value, 255) || !ValidSongField(artist.value, 255)
             || !ValidSongField(genre.value, 50) {
        return None, BadRequest;
      }
      if clipText.value.None? || clipText.value.value < 0.0 {
        return None, BadRequest;
      }
      var clipStart := clipText.value.value;
      if !disk.createOk {
        return None, Internal;
      }
      var keepFile := false;
      staged := None;
      incoming := incoming[disk.name := disk.Copied()];
      label body: {
        if !disk.copyOk {
          status := Internal;
          break body;
        }
        if MAX_SONG_FILE_BYTES < disk.Copied() {
          status := TooLarge;
          break body;
        }
        if !disk.syncOk || !disk.closeOk || p.CouldNotRun? {
          status := Internal;
          break body;
        }
        var duration := ProbeDuration(p);
        if duration.None? || duration.value - clipStart + TOLERANCE < MIN_CLIP_SECONDS
            || MAX_INT32 as real < duration.value {
          status := BadRequest;
          break body;
        }
        keepFile := true;
        staged, status := Some(Staged(disk.name, Max(1, (duration.value + 0.5).Floor), clipStart)), Accepted;
      }
      if !keepFile {
        RemoveInput(disk.name, removable);
      }
    }

    // ----- persistSongUploadWithBegin -----

    /** `id` is the uuid the database draws, `begun` the start of the transaction. */
    method Persist(staged: Staged, id: SongId, begun: Time, tx: Transaction, removable: bool) returns (ok: bool)
      requires staged.name in incoming && id !in table.jobs && id !in table.songs
      modifies this`incoming, table
      ensures ok == (tx.Reached() && tx.commit.Committed?)
      ensures table.Rows() == if tx.Applied() then EnqueueJob(old(table.Rows()), id, staged.name, begun)
        else old(table.Rows())
      ensures incoming == if ok || tx.InDoubt() || !removable then old(incoming) else old(incoming) - {staged.name}
    {
      var keepFile := false;
      ok := false;
      label body: {
        if !tx.beginOk {
          break body;
        }
        if !tx.createOk || !tx.scanOk || !tx.enqueueOk {
          break body;
        }
        if !tx.commit.RolledBack? && (tx.commit.Committed? || tx.commit.applied) {
          var inserted := table.EnqueueUpload(id, staged.name, begun);
        }
        if !tx.commit.Committed? {
          if !tx.commit.RolledBack? {
            keepFile := true;
          }
          break body;
        }
        keepFile := true;
        ok := true;
      }
      if !keepFile {
        RemoveInput(staged.name, removable);
      }
    }

    /** uploadSong: the file and the job agree, except that an unknown commit may leave a file that no job names. */
    method Upload(form: Form, disk: Disk, p: Probe, id: SongId, begun: Time, tx: Transaction, removable: bool)
        returns (ok: bool)
      requires disk.name !in incoming && id !in table.jobs && id !in table.songs
      modifies this`incoming, table
      ensures table.Rows() == if Acceptable(form, disk, p) && tx.Applied() then
        EnqueueJob(old(table.Rows()), id, disk.name, begun) else old(table.Rows())
      // Success is a commit that was reached and confirmed.
      ensures ok <==>
        && Acceptable(form, disk, p) && tx.beginOk && tx.createOk && tx.scanOk && tx.enqueueOk && tx.commit == Committed
      ensures incoming
           == (if LeavesFile(form, disk, p, tx, removable) then old(incoming)[disk.name := disk.Copied()]
               else old(incoming))
      // A job is there: so is its file, whole.
      ensures id in table.jobs ==> Acceptable(form, disk, p) && incoming == old(incoming)[disk.name := disk.offered]
      // The client was told so: the job is there.
      ensures ok ==> id in table.jobs
      // A failure that is known to be one leaves nothing.
      ensures !ok && removable && !(Acceptable(form, disk, p) && tx.InDoubt()) ==>
        table.Rows() == old(table.Rows()) && incoming == old(incoming)
      // A file without a job: the commit's outcome was unknown, and it had not been applied.
      ensures removable ==> (disk.name in incoming && id !in table.jobs
         <==> Acceptable(form, disk, p) && tx.InDoubt() && !tx.Applied())
    {
      var staged, status := Receive(form, disk, p, removable);
      if staged.None? {
        return false;
      }
      ok := Persist(staged.value, id, begun, tx, removable);
    }
  }

  /** What an unknown commit leaves behind without a job, the first pass of cleanup over it after an interval
      collects. */
  lemma OrphanIsCollected(
      files: MediaCleanup.Files, db: Db, uuid: SongId -> string, leaseAt: Time, sweepAt: Time, name: InputName,
          written: Time)
    requires MediaCleanup.Injective(uuid) && name !in Snapshots.NeededInputs(db.jobs)
    requires Names.InputFile(name) in files.incoming
      && files.incoming[Names.InputFile(name)] == MediaCleanup.File(true, written)
    ensures Names.InputFile(name) in MediaCleanup.FilesAfter(files, db, uuid, leaseAt, sweepAt).incoming
       <==> sweepAt <= written + P.CLEANUP_INTERVAL && name !in Snapshots.TerminalInputs(db.jobs)
  {
    MediaCleanup.InputGuard(Snapshots.NeededInputs(db.jobs), sweepAt - P.CLEANUP_INTERVAL, name, written);
    MediaCleanup.FileIsNeeded(Snapshots.TerminalInputs(db.jobs), name);
  }
}
