/** The `__main__` block of the generator: make the root directory, then
    walk the note table, skipping every note whose directory exists and
    otherwise writing its reference tone and ten perturbed variants. */
module GeneratorMain {
  import opened Synthesis
  import opened RandomStream
  import opened WaveIo
  import opened Dataset

  /** The part of the heap a run changes, as a value. */
  function WorldOf(fs: FileSystem, rng: Random): World
    reads fs, rng
  {
    World(fs.dirs, fs.files, rng.drawn)
  }

  /** One pass of the inner loop: draw an amplitude and a frequency shift,
      then write variant `j` of the note. */
  method WriteVariant(fs: FileSystem, rng: Random, note: Note, sep: char, sine: Sine, j: nat)
    requires j < VariantCount
    modifies fs, rng
    ensures WorldOf(fs, rng) == Variant(old(WorldOf(fs, rng)), Env(sep, sine, rng.below, rng.unit), note, j)
  {
    var amplitude := rng.RandInt(AmplitudeLo, AmplitudeHi);
    var shift := rng.Uniform(ShiftLo, ShiftHi);
    var newFreq := note.freq + shift;
    var ok := CreateWav(fs, sine, VariantName(sep, note.name, j), newFreq, SampleRate as real, amplitude);
  }

  /** The start of an outer pass for a new note: its directory, then the
      reference tone at amplitude 20. */
  method WriteReference(fs: FileSystem, rng: Random, note: Note, sep: char, sine: Sine)
    requires !fs.Exists(NoteDir(sep, note.name))
    modifies fs
    ensures WorldOf(fs, rng) == WithReference(old(WorldOf(fs, rng)), Env(sep, sine, rng.below, rng.unit), note)
  {
    var notePath := NoteDir(sep, note.name);
    var made := fs.MakeDir(notePath);
    var ok := CreateWav(fs, sine, ReferenceName(sep, note.name), note.freq, SampleRate as real);
  }

  /** One pass of the outer loop for a note whose directory is missing:
      the directory, the reference tone at amplitude 20, then the ten
      variants in order. */
  method WriteNote(fs: FileSystem, rng: Random, note: Note, sep: char, sine: Sine)
    requires !fs.Exists(NoteDir(sep, note.name))
    modifies fs, rng
    ensures WorldOf(fs, rng) == Step(old(WorldOf(fs, rng)), Env(sep, sine, rng.below, rng.unit), note)
  {
    ghost var env := Env(sep, sine, rng.below, rng.unit);
    WriteReference(fs, rng, note, sep, sine);
    ghost var start := WorldOf(fs, rng);
    for j := 0 to VariantCount
      invariant WorldOf(fs, rng) == Variants(start, env, note, j)
    {
      WriteVariant(fs, rng, note, sep, sine, j);
    }
  }

  /** One run. `sep` is the separator of the host's `os.path.join`; the
      note table is passed in. The resulting directories, files and draws
      are exactly those `Generate` describes. */
  method GenerateDataset(fs: FileSystem, rng: Random, table: seq<Note>, sep: char, sine: Sine)
    modifies fs, rng
    ensures WorldOf(fs, rng) == Generate(old(WorldOf(fs, rng)), Env(sep, sine, rng.below, rng.unit), table)
  {
    ghost var env := Env(sep, sine, rng.below, rng.unit);
    ghost var w0 := WorldOf(fs, rng);
    if !fs.Exists(Root) {
      var _ := fs.MakeDir(Root);
    }
    for i := 0 to |table|
      invariant WorldOf(fs, rng) == RunNotes(EnsureRoot(w0), env, table[..i])
    {
      if !fs.Exists(NoteDir(sep, table[i].name)) {
        WriteNote(fs, rng, table[i], sep, sine);
      }
      assert table[..i + 1][..i] == table[..i];
    }
    assert table[..|table|] == table;
  }
}
