/** One attempt's files on disk: making them, and moving them to where listeners find them. */
module Publish {
  import opened Prelude
  import opened SongJobs
  import opened Protocol

  datatype File = File(regular: bool, size: nat)

  type Folder = map<AudioFile, File>

  /** requireAudioFile. */
  predicate IsAudio(files: Folder, f: AudioFile) {
    f in files && files[f].regular && 0 < files[f].size
  }

  predicate HasAudioStems(files: Folder) {
    forall i :: 1 <= i < FILES ==> IsAudio(files, FileAt(i))
  }

  /** All five files, none empty. */
  ghost predicate IsComplete(files: Folder) {
    forall f: AudioFile :: IsAudio(files, f)
  }

  /** The files that come at `place` or later in the order in which Publish moves them. */
  function Unmoved(files: Folder, place: nat): Folder {
    map f <- files | place <= Place(f) :: files[f]
  }

  function Moved(files: Folder, place: nat): Folder {
    map f <- files | Place(f) < place :: files[f]
  }

  /** Every copy of a file, whichever of the three directories holds it. */
  function Copies(sources: Folder, result: Option<Folder>, final: Option<Folder>, f: AudioFile): multiset<File> {
    CopiesIn(sources, f) + (if result.Some? then CopiesIn(result.value, f) else multiset{})
    + (if final.Some? then CopiesIn(final.value, f) else multiset{})
  }

  function CopiesIn(files: Folder, f: AudioFile): multiset<File> {
    if f in files then multiset{files[f]} else multiset{}
  }

  /** The files before `place` have arrived as they were made. */
  ghost predicate Carries(made: Folder, files: Option<Folder>, place: nat) {
    forall f: AudioFile :: Place(f) < place ==>
        f in made && files.Some? && f in files.value && files.value[f] == made[f]
  }

  /** What the tools leave behind, and where the file system or the process gives out. */
  datatype World = World(
    inputOk: bool, ffmpegOk: bool, clip: Option<File>, demucsOk: bool, stems: Folder, calls: Option<nat>, cleaned: bool)

  datatype Outcome = Done | AlreadyExists | Stopped

  class AttemptFiles {
    /** The clip and Demucs's output, in the work directory. */
    var sources: Folder
    /** The result directory inside it. */
    var result: Option<Folder>
    /** The final directory. */
    var final: Option<Folder>

    constructor (final: Option<Folder>)
      ensures sources == map[] && result == None && this.final == final
    {
      sources, result, this.final := map[], None, final;
    }

    /** os.Rename from the work directory into the result directory; it replaces what is there. */
    method Move(f: AudioFile) returns (ok: bool)
      modifies this`sources, this`result
      ensures ok == (f in old(sources) && old(result).Some?)
      ensures sources == if ok then old(sources) - {f} else old(sources)
      ensures result == if ok then Some(old(result).value[f := old(sources)[f]]) else old(result)
    {
      ok := f in sources && result.Some?;
      if ok {
        result := Some(result.value[f := sources[f]]);
        sources := sources - {f};
      }
    }

    /** The renames of Publish: the clip, then the stems. `calls` is how many go through before one fails or the process
        dies, if that happens. */
    method MoveAll(calls: Option<nat>) returns (moved: nat, left: Option<nat>)
      modifies this`sources, this`result
      ensures moved <= FILES && sources == Unmoved(old(sources), moved) && (result.Some? <==> old(result).Some?)
      // The files that have gone are the first ones of this list.
      ensures moved <= 5 && sources.Keys == old(sources).Keys - (set f <- [Full, Drums, Bass, Other, Vocals][..moved])
      ensures Carries(old(sources), result, moved)
      ensures old(result) == Some(map[]) ==> result == Some(Moved(old(sources), moved))
      ensures calls.None? ==> left.None? && (moved < FILES ==> old(result).None? || FileAt(moved) !in old(sources))
    {
      left, moved := calls, 0;
      ghost var made := sources;
      while moved < FILES
        invariant moved <= FILES && sources == Unmoved(made, moved) && (result.Some? <==> old(result).Some?)
        invariant Carries(made, result, moved)
        invariant old(result) == Some(map[]) ==> result == Some(Moved(made, moved))
        invariant calls.None? ==> left.None?
      {
        if left == Some(0) {
          UnmovedAreLast(made, moved);
          return;
        }
        left := if left.Some? then Some(left.value - 1) else None;
        MoveNext(made, result, moved);
        var ok := Move(FileAt(moved));
        if !ok {
          UnmovedAreLast(made, moved);
          return;
        }
        moved := moved + 1;
      }
      UnmovedAreLast(made, moved);
    }

    method Publish(calls: Option<nat>) returns (outcome: Outcome)
      modifies this
      // What is published is five files; the four stems are regular and not empty, and the clip is as it was made.
      ensures outcome.Done? ==> final.Some? && final.value.Keys == {Full, Drums, Bass, Other, Vocals}
      ensures outcome.Done? ==> forall f <- final.value :: f != Full ==>
        final.value[f].regular && 0 < final.value[f].size
      ensures calls.None? && old(result).Some? && old(final).None? ==>
        old(sources).Keys == {Full, Drums, Bass, Other, Vocals} ==>
        (outcome.Done? <==> forall f <- old(sources) :: f != Full ==>
          old(sources)[f].regular && 0 < old(sources)[f].size)
      ensures outcome.Done? ==>
        old(final).None? && HasAudioStems(old(sources)) && result.None? && final.Some?
            && Carries(old(sources), final, FILES)
      ensures !outcome.Done? ==> final == old(final)
      ensures outcome.AlreadyExists? ==> old(final).Some?
      ensures calls.None? ==>
        (outcome.Done? <==>
           HasAudioStems(old(sources)) && Full in old(sources) && old(result).Some? && old(final).None?)
      ensures calls.None? ==>
        (outcome.AlreadyExists? <==>
           HasAudioStems(old(sources)) && Full in old(sources) && old(result).Some? && old(final).Some?)
      ensures old(result) == Some(map[]) && old(final).None? ==>
        forall f: AudioFile :: Copies(sources, result, final, f) == CopiesIn(old(sources), f)
    {
      if !HasAudioStems(sources) {
        return Stopped;
      }
      StemsAreFour(sources);
      ghost var made := sources;
      var moved, left := MoveAll(calls);
      forall f: AudioFile {
        NothingIsLost(made, moved, f);
      }
      if moved < FILES {
        NextIsThere(made, moved);
        return Stopped;
      }
      if final.Some? {
        return AlreadyExists;
      }
      assert Place(Full) < moved && Place(Drums) < moved;
      if left == Some(0) {
        return Stopped;
      }
      final, result := result, None;
      outcome := Done;
    }

    /** AudioProcessor.Process up to its deferred cleanup: FFmpeg, CheckClip, Demucs, Publish. */
    method Produce(w: World) returns (outcome: Outcome)
      modifies this
      ensures if outcome.Done? then old(final).None? && final.Some? && IsComplete(final.value) else final == old(final)
      ensures w.calls.None? && old(sources) == map[] ==>
        (outcome.Done? <==> w.ffmpegOk && w.clip.Some? && IsAudio(map[Full := w.clip.value], Full) && w.demucsOk
                            && HasAudioStems(w.stems) && old(final).None?)
    {
      result := Some(if result.Some? then result.value else map[]);
      if w.clip.Some? {
        sources := sources[Full := w.clip.value];
      }
      if !w.ffmpegOk || !IsAudio(sources, Full) {
        return Stopped;
      }
      ghost var clipped := sources;
      sources := sources + (w.stems - {Full});
      if !w.demucsOk {
        return Stopped;
      }
      if clipped.Keys <= {Full} {
        SameStems(clipped, w.stems);
      }
      ghost var made := sources;
      outcome := Publish(w.calls);
      if outcome.Done? {
        StemsAreFour(made);
      }
    }

    /** The final directory appears at once and complete, or not at all, however far the attempt gets. */
    method Process(w: World) returns (outcome: Outcome)
      modifies this
      ensures outcome.Done? ==> final.Some? && final.value.Keys == {Full, Drums, Bass, Other, Vocals}
      ensures outcome.Done? ==> forall f <- final.value :: final.value[f].regular && 0 < final.value[f].size
      // When nothing is cut short, success needs exactly the tools' success, a usable clip and stems, and a free place.
      ensures w.calls.None? && old(sources) == map[] ==>
        (outcome.Done? <==>
           && w.inputOk && w.ffmpegOk && w.demucsOk && old(final).None?
           && w.clip.Some? && w.clip.value.regular && 0 < w.clip.value.size
           && forall f :: f in {Drums, Bass, Other, Vocals} ==>
                f in w.stems && w.stems[f].regular && 0 < w.stems[f].size)
      ensures if outcome.Done? then old(final).None? && final.Some? && IsComplete(final.value) else final == old(final)
      ensures w.cleaned && w.inputOk ==> sources == map[] && result == None
    {
      if !w.inputOk {
        return Stopped;
      }
      StemsAreAudio(w.stems);
      outcome := Produce(w);
      if outcome.Done? {
        CompleteIsFiveFiles(final.value);
      }
      if w.cleaned {
        sources, result := map[], None;
      }
    }
  }

  lemma CompleteIsFiveFiles(files: Folder)
    ensures IsComplete(files) <==>
      files.Keys == {Full, Drums, Bass, Other, Vocals} && forall f <- files :: files[f].regular && 0 < files[f].size
  {
    forall f <- files
      ensures f in {Full, Drums, Bass, Other, Vocals}
    {
      match f
      case Full =>
      case Drums =>
      case Bass =>
      case Other =>
      case Vocals =>
    }
    if IsComplete(files) {
      forall f | f in {Full, Drums, Bass, Other, Vocals}
        ensures f in files && files[f].regular && 0 < files[f].size
      {
        assert IsAudio(files, f);
      }
    } else if files.Keys == {Full, Drums, Bass, Other, Vocals} {
      var f: AudioFile :| !IsAudio(files, f);
      assert f in files by {
        match f
        case Full =>
        case Drums =>
        case Bass =>
        case Other =>
        case Vocals =>
      }
    }
  }

  lemma StemsAreAudio(files: Folder)
    ensures HasAudioStems(files) <==>
      forall f :: f in {Drums, Bass, Other, Vocals} ==> f in files && files[f].regular && 0 < files[f].size
  {
    assert HasAudioStems(files) ==>
        IsAudio(files, FileAt(1)) && IsAudio(files, FileAt(2)) && IsAudio(files, FileAt(3))
            && IsAudio(files, FileAt(4));
  }

  lemma SameStems(files: Folder, stems: Folder)
    requires files.Keys <= {Full}
    ensures HasAudioStems(files + (stems - {Full})) <==> HasAudioStems(stems)
  {
  }

  lemma MoveNext(made: Folder, result: Option<Folder>, i: nat)
    requires i < FILES && Carries(made, result, i)
    ensures var f := FileAt(i);
      && (f in Unmoved(made, i) <==> f in made)
      && (f in made ==>
            && Unmoved(made, i)[f] == made[f] && Unmoved(made, i) - {f} == Unmoved(made, i + 1)
            && Moved(made, i)[f := made[f]] == Moved(made, i + 1)
            && (result.Some? ==> Carries(made, Some(result.value[f := made[f]]), i + 1)))
  {
    forall f: AudioFile
      ensures Place(f) == i <==> f == FileAt(i)
    {
    }
  }

  /** With the clip and four audio stems, no rename fails for want of its file. */
  lemma NextIsThere(files: Folder, place: nat)
    requires HasAudioStems(files) && place < FILES
    ensures Full in files ==> FileAt(place) in files
  {
  }

  lemma UnmovedAreLast(files: Folder, place: nat)
    requires place <= 5
    ensures Unmoved(files, place).Keys == files.Keys - (set f <- [Full, Drums, Bass, Other, Vocals][..place])
  {
    var order := [Full, Drums, Bass, Other, Vocals];
    forall f: AudioFile
      ensures Place(f) < place <==> f in order[..place]
    {
      assert order[Place(f)] == f;
      assert forall k :: 0 <= k < place ==> order[..place][k] == order[k];
      if Place(f) < place {
        assert order[..place][Place(f)] == f;
      }
    }
  }

  lemma NothingIsLost(made: Folder, moved: nat, f: AudioFile)
    ensures Copies(Unmoved(made, moved), Some(Moved(made, moved)), None, f) == CopiesIn(made, f)
    ensures FILES <= moved ==> Moved(made, moved) == made && Unmoved(made, moved) == map[]
  {
  }

  lemma StemsAreFour(files: Folder)
    requires HasAudioStems(files)
    ensures forall f: AudioFile :: f.Full? || IsAudio(files, f)
  {
    forall f: AudioFile | !f.Full?
      ensures IsAudio(files, f)
    {
      assert FileAt(Place(f)) == f;
    }
  }
}
