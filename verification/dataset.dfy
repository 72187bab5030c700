/** The `__main__` loop of the generator as a function on the state it
    changes: the directories, the wave files and the calls made on the shared
    random generator. `Generate` is what one run does; the lemmas state what a
    run guarantees about each note of the table. */
module Dataset {
  import opened Synthesis
  import opened RandomStream

  /** The dataset root `path`, relative to the working directory. */
  const Root: string := "Simulated_Dataset"
  /** Perturbed files per note (`range(10)`). */
  const VariantCount: nat := 10
  /** `create_wav`'s default amplitude, used for the reference file. */
  const ReferenceAmplitude: int := 20
  /** Bounds of `randint(5, 20)` and `uniform(-10, 10)`. */
  const AmplitudeLo: int := 5
  const AmplitudeHi: int := 20
  const ShiftLo: real := -10.0
  const ShiftHi: real := 10.0

  /** One entry of the note table: a note name and its frequency in Hz. */
  datatype Note = Note(name: string, freq: real)

  /** What a run depends on besides the table and the starting state: the
      separator `os.path.join` uses, the sine, and the generator's sources. */
  datatype Env = Env(sep: char, sine: Sine, below: BelowSource, unit: UnitSource)

  /** The state a run changes. */
  datatype World = World(dirs: set<string>, files: map<string, Wav>, drawn: seq<Draw>)

  /** `os.path.exists`. */
  predicate Exists(w: World, path: string)
  {
    path in w.dirs || path in w.files
  }

  /** `os.path.join(path, key)`. */
  function NoteDir(sep: char, name: string): string
  {
    Root + [sep] + name
  }

  /** `str(j)` for a variant index. */
  function Digit(j: nat): string
    requires j < 10
  {
    [(48 + j) as char]
  }

  /** `str(j)` is the single decimal digit whose value is `j`, so different
      indices give different names. */
  lemma DigitValue(j: nat, k: nat)
    requires j < 10 && k < 10
    ensures |Digit(j)| == 1 && '0' <= Digit(j)[0] <= '9' && Digit(j)[0] as int - '0' as int == j
    ensures Digit(j) == Digit(k) <==> j == k
  {
  }

  /** `note_path + "\\" + key`: the name the reference tone is written under. */
  function ReferenceName(sep: char, name: string): string
  {
    NoteDir(sep, name) + "\\" + name
  }

  /** `note_path + "\\" + key + str(j)`: the name variant `j` is written under. */
  function VariantName(sep: char, name: string, j: nat): string
    requires j < 10
  {
    NoteDir(sep, name) + "\\" + name + Digit(j)
  }

  /** The reference file, with the `.wav` that `create_wav` adds. */
  function ReferencePath(sep: char, name: string): string
  {
    ReferenceName(sep, name) + ".wav"
  }

  /** Variant file `j`, with the `.wav` that `create_wav` adds. */
  function VariantPath(sep: char, name: string, j: nat): string
    requires j < 10
  {
    VariantName(sep, name, j) + ".wav"
  }

  /** A note directory is the root, the host separator, then the name. */
  lemma NoteDirLayout(sep: char, name: string)
    ensures var d := NoteDir(sep, name);
      Root <= d && |d| == |Root| + 1 + |name| && d[|Root|] == sep && d[|Root| + 1..] == name
  {
  }

  /** The reference file lies in the note directory, after a backslash,
      under the note's own name. */
  lemma ReferencePathLayout(sep: char, name: string)
    ensures var d, p := NoteDir(sep, name), ReferencePath(sep, name);
      d <= p && |d| < |p| && p[|d|] == '\\' && p[|d| + 1..] == name + ".wav"
  {
  }

  /** Variant `j` lies in the note directory, after a backslash, under the
      note's name followed by the digit `j`. */
  lemma VariantPathLayout(sep: char, name: string, j: nat)
    requires j < 10
    ensures var d, p := NoteDir(sep, name), VariantPath(sep, name, j);
      d <= p && |d| < |p| && p[|d|] == '\\' && p[|d| + 1..] == name + Digit(j) + ".wav"
  {
  }

  /** The note's directory, or a path below it: after the directory comes
      either the host separator or the backslash the source writes before a
      file name. */
  predicate InNoteTree(sep: char, name: string, p: string)
  {
    var d := NoteDir(sep, name);
    d <= p && (|p| == |d| || p[|d|] == '\\' || p[|d|] == sep)
  }

  /** Every path a run may create for a note: its directory and its files. */
  function Touched(sep: char, name: string): set<string>
  {
    {NoteDir(sep, name), ReferencePath(sep, name)} + set j: nat | j < 10 :: VariantPath(sep, name, j)
  }

  /** Nothing about path `p` differs between `w` and `r`. */
  predicate Unchanged(w: World, r: World, p: string)
  {
    (p in r.dirs <==> p in w.dirs) &&
    (p in r.files <==> p in w.files) &&
    (p in w.files ==> r.files[p] == w.files[p])
  }

  predicate UniqueNames(notes: seq<Note>)
  {
    forall i, j :: 0 <= i < j < |notes| ==> notes[i].name != notes[j].name
  }

  /** A note name holds neither the host separator nor the backslash the
      source puts between a note directory and a file name. */
  predicate PlainName(sep: char, name: string)
  {
    '\\' !in name && sep !in name
  }

  predicate PlainNames(sep: char, notes: seq<Note>)
  {
    forall i :: 0 <= i < |notes| ==> PlainName(sep, notes[i].name)
  }

  // ---------------------------------------------------------------------
  // One run

  /** Iteration `j` of the inner loop: `randint(5, 20)`, then
      `uniform(-10, 10)`, then the file for the shifted frequency. */
  function Variant(w: World, env: Env, note: Note, j: nat): (r: World)
    requires j < 10
    ensures r.dirs == w.dirs && w.files.Keys <= r.files.Keys
    ensures |r.drawn| == |w.drawn| + 2 && w.drawn <= r.drawn
  {
    var amplitude := RandIntValue(env.below, w.drawn, AmplitudeLo, AmplitudeHi);
    var afterInt := w.drawn + [IntDraw(AmplitudeLo, AmplitudeHi, amplitude)];
    var shift := UniformValue(env.unit, afterInt, ShiftLo, ShiftHi);
    World(w.dirs,
          w.files[VariantPath(env.sep, note.name, j) := ToneFile(note.freq + shift, amplitude, env.sine)],
          afterInt + [RealDraw(ShiftLo, ShiftHi, shift)])
  }

  /** The first `count` iterations of the inner loop. */
  function Variants(w: World, env: Env, note: Note, count: nat): (r: World)
    requires count <= 10
    ensures r.dirs == w.dirs && w.files.Keys <= r.files.Keys
    ensures |r.drawn| == |w.drawn| + 2 * count && w.drawn <= r.drawn
  {
    if count == 0 then w
    else Variant(Variants(w, env, note, count - 1), env, note, count - 1)
  }

  /** The world right after the note directory and its reference file are made. */
  function WithReference(w: World, env: Env, note: Note): (r: World)
    ensures NoteDir(env.sep, note.name) in r.dirs && ReferencePath(env.sep, note.name) in r.files
    ensures r.files[ReferencePath(env.sep, note.name)] == ToneFile(note.freq, ReferenceAmplitude, env.sine)
    ensures r.drawn == w.drawn
    ensures forall p :: p != NoteDir(env.sep, note.name) && p != ReferencePath(env.sep, note.name) ==>
      Unchanged(w, r, p)
  {
    World(w.dirs + {NoteDir(env.sep, note.name)},
          w.files[ReferencePath(env.sep, note.name) := ToneFile(note.freq, ReferenceAmplitude, env.sine)],
          w.drawn)
  }

  /** One iteration of the outer loop. */
  function Step(w: World, env: Env, note: Note): (r: World)
    ensures Exists(w, NoteDir(env.sep, note.name)) ==> r == w
    ensures !Exists(w, NoteDir(env.sep, note.name)) ==>
      |r.drawn| == |w.drawn| + 2 * VariantCount && NoteDir(env.sep, note.name) in r.dirs
    ensures w.drawn <= r.drawn && w.dirs <= r.dirs && w.files.Keys <= r.files.Keys
  {
    if Exists(w, NoteDir(env.sep, note.name)) then w
    else Variants(WithReference(w, env, note), env, note, VariantCount)
  }

  /** The outer loop over the first `|notes|` entries of the table. */
  function RunNotes(w: World, env: Env, notes: seq<Note>): (r: World)
    ensures w.drawn <= r.drawn && w.dirs <= r.dirs && w.files.Keys <= r.files.Keys
  {
    if notes == [] then w
    else Step(RunNotes(w, env, notes[..|notes| - 1]), env, notes[|notes| - 1])
  }

  /** Creating the root directory when nothing exists at its path. */
  function EnsureRoot(w: World): (r: World)
    ensures Exists(r, Root) && r.files == w.files && r.drawn == w.drawn
    ensures Exists(w, Root) ==> r == w
    ensures forall p :: p != Root ==> Unchanged(w, r, p)
  {
    if Exists(w, Root) then w else w.(dirs := w.dirs + {Root})
  }

  /** A whole run over the note table. */
  function Generate(w: World, env: Env, table: seq<Note>): (r: World)
    ensures Exists(r, Root)
    ensures w.drawn <= r.drawn && w.dirs <= r.dirs && w.files.Keys <= r.files.Keys
  {
    RunNotes(EnsureRoot(w), env, table)
  }

  /** How many notes of `notes` have no directory in `w`. */
  function CountFresh(w: World, sep: char, notes: seq<Note>): nat
  {
    if notes == [] then 0
    else CountFresh(w, sep, notes[..|notes| - 1]) +
         (if Exists(w, NoteDir(sep, notes[|notes| - 1].name)) then 0 else 1)
  }

  /** The two draws of variant `j`, counted from `base`: `randint(5, 20)`
      then `uniform(-10, 10)`, each the value the generator gives after
      exactly the calls before it. */
  predicate DrawPairOk(env: Env, d: seq<Draw>, base: nat, j: nat)
  {
    base + 2 * j + 1 < |d| &&
    d[base + 2 * j] == IntDraw(AmplitudeLo, AmplitudeHi,
                               RandIntValue(env.below, d[..base + 2 * j], AmplitudeLo, AmplitudeHi)) &&
    d[base + 2 * j + 1] == RealDraw(ShiftLo, ShiftHi,
                                    UniformValue(env.unit, d[..base + 2 * j + 1], ShiftLo, ShiftHi))
  }

  /** Variant `j` of the note is on file, synthesised from its two draws. */
  predicate VariantFileOk(w: World, env: Env, note: Note, base: nat, j: nat)
    requires j < 10
  {
    DrawPairOk(env, w.drawn, base, j) &&
    var amplitude := w.drawn[base + 2 * j].n;
    var shift := w.drawn[base + 2 * j + 1].x;
    AmplitudeLo <= amplitude <= AmplitudeHi && ShiftLo <= shift < ShiftHi &&
    VariantPath(env.sep, note.name, j) in w.files &&
    w.files[VariantPath(env.sep, note.name, j)] == ToneFile(note.freq + shift, amplitude, env.sine)
  }

  /** A note's directory and all eleven of its files are in place, its
      variants made from the block of draws starting at `base`. */
  predicate NoteWritten(r: World, env: Env, note: Note, base: nat)
  {
    NoteDir(env.sep, note.name) in r.dirs &&
    ReferencePath(env.sep, note.name) in r.files &&
    r.files[ReferencePath(env.sep, note.name)] == ToneFile(note.freq, ReferenceAmplitude, env.sine) &&
    forall j :: 0 <= j < VariantCount ==> VariantFileOk(r, env, note, base, j)
  }

  /** Where note `i`'s block of draws starts: after twenty draws for each
      note before it whose directory was missing. */
  function BlockStart(w: World, sep: char, notes: seq<Note>, i: nat): nat
    requires i <= |notes|
  {
    |w.drawn| + 20 * CountFresh(w, sep, notes[..i])
  }

  // ---------------------------------------------------------------------
  // Paths

  /** The eleven file names of a note are pairwise different. */
  lemma {:induction false} NoteFileNamesDistinct(sep: char, name: string, j: nat, k: nat)
    requires j < 10 && k < 10
    ensures ReferencePath(sep, name) != VariantPath(sep, name, j)
    ensures j != k ==> VariantPath(sep, name, j) != VariantPath(sep, name, k)
  {
    var prefix := NoteDir(sep, name) + "\\" + name;
    assert ReferencePath(sep, name) == prefix + ".wav";
    assert VariantPath(sep, name, j) == prefix + Digit(j) + ".wav";
    assert VariantPath(sep, name, k) == prefix + Digit(k) + ".wav";
    assert VariantPath(sep, name, j)[|prefix|] == Digit(j)[0];
    assert VariantPath(sep, name, k)[|prefix|] == Digit(k)[0];
  }

  /** `d + "\\" + rest` lies in the tree of directory `d`. */
  lemma BelowDirectory(d: string, rest: string)
    ensures d <= d + "\\" + rest
    ensures (d + "\\" + rest)[|d|] == '\\'
  {
    assert (d + "\\" + rest)[..|d|] == d;
  }

  /** Every path a run may create for a note lies in that note's tree. */
  lemma {:induction false} TouchedInNoteTree(sep: char, name: string, p: string)
    requires p in Touched(sep, name)
    ensures InNoteTree(sep, name, p)
  {
    var d := NoteDir(sep, name);
    if p == ReferencePath(sep, name) {
      assert p == d + "\\" + (name + ".wav");
      BelowDirectory(d, name + ".wav");
    } else if p != d {
      var j: nat :| j < 10 && p == VariantPath(sep, name, j);
      assert p == d + "\\" + (name + Digit(j) + ".wav");
      BelowDirectory(d, name + Digit(j) + ".wav");
    }
  }

  /** Trees of two different plain note names share no path. */
  lemma NoteTreesDisjoint(sep: char, a: string, b: string, p: string)
    requires PlainName(sep, a) && PlainName(sep, b) && a != b
    requires InNoteTree(sep, a, p)
    ensures !InNoteTree(sep, b, p)
  {
    NoteDirLayout(sep, a);
    NoteDirLayout(sep, b);
  }

  /** A note's tree holds none of the paths a run creates for another note. */
  lemma TouchedElsewhere(sep: char, a: string, b: string, p: string)
    requires PlainName(sep, a) && PlainName(sep, b) && a != b
    requires InNoteTree(sep, a, p)
    ensures p !in Touched(sep, b)
  {
    if p in Touched(sep, b) {
      TouchedInNoteTree(sep, b, p);
      NoteTreesDisjoint(sep, a, b, p);
    }
  }

  /** The root directory lies in no note's tree. */
  lemma RootOutsideNoteTrees(sep: char, name: string)
    ensures !InNoteTree(sep, name, Root)
    ensures Root !in Touched(sep, name)
  {
    if Root in Touched(sep, name) {
      TouchedInNoteTree(sep, name, Root);
    }
  }

  // ---------------------------------------------------------------------
  // One note

  /** The draw log only grows, so a pair already checked stays checked. */
  lemma DrawPairStays(env: Env, d: seq<Draw>, e: seq<Draw>, base: nat, j: nat)
    requires DrawPairOk(env, d, base, j) && d <= e
    ensures DrawPairOk(env, e, base, j)
  {
    assert e[..base + 2 * j] == d[..base + 2 * j];
    assert e[..base + 2 * j + 1] == d[..base + 2 * j + 1];
  }

  lemma VariantFileStays(w: World, r: World, env: Env, note: Note, base: nat, j: nat)
    requires j < 10
    requires VariantFileOk(w, env, note, base, j)
    requires w.drawn <= r.drawn && Unchanged(w, r, VariantPath(env.sep, note.name, j))
    ensures VariantFileOk(r, env, note, base, j)
  {
    DrawPairStays(env, w.drawn, r.drawn, base, j);
  }

  /** The inner loop writes variant `j` from draws `2j` and `2j + 1` after
      the log's starting length, for every `j` below `count`. */
  lemma {:induction false} VariantsWrite(w: World, env: Env, note: Note, count: nat)
    requires count <= 10
    ensures forall j :: 0 <= j < count ==> VariantFileOk(Variants(w, env, note, count), env, note, |w.drawn|, j)
  {
    if count > 0 {
      var prev := Variants(w, env, note, count - 1);
      var r := Variants(w, env, note, count);
      VariantsWrite(w, env, note, count - 1);
      assert r == Variant(prev, env, note, count - 1);
      forall j | 0 <= j < count
        ensures VariantFileOk(r, env, note, |w.drawn|, j)
      {
        if j < count - 1 {
          NoteFileNamesDistinct(env.sep, note.name, j, count - 1);
          VariantFileStays(prev, r, env, note, |w.drawn|, j);
        } else {
          VariantJustWritten(prev, env, note, |w.drawn|, j);
        }
      }
    }
  }

  /** Variant `j`, made when the log holds `base + 2j` draws, is written from
      the next two. */
  lemma VariantJustWritten(w: World, env: Env, note: Note, base: nat, j: nat)
    requires j < 10 && |w.drawn| == base + 2 * j
    ensures VariantFileOk(Variant(w, env, note, j), env, note, base, j)
  {
    var d := Variant(w, env, note, j).drawn;
    assert d[..base + 2 * j] == w.drawn;
    assert d[..base + 2 * j + 1] == w.drawn + [d[base + 2 * j]];
  }

  /** The inner loop touches no path but the note's variant files. */
  lemma {:induction false} VariantsFrame(w: World, env: Env, note: Note, count: nat, p: string)
    requires count <= 10
    requires p !in Touched(env.sep, note.name)
    ensures Unchanged(w, Variants(w, env, note, count), p)
  {
    if count > 0 {
      VariantsFrame(w, env, note, count - 1, p);
      assert p != VariantPath(env.sep, note.name, count - 1);
    }
  }

  /** A step touches no path outside the note's directory and files. */
  lemma StepFrame(w: World, env: Env, note: Note, p: string)
    requires p !in Touched(env.sep, note.name)
    ensures Unchanged(w, Step(w, env, note), p)
  {
    if !Exists(w, NoteDir(env.sep, note.name)) {
      VariantsFrame(WithReference(w, env, note), env, note, VariantCount, p);
    }
  }

  /** A step for a new note makes its directory, its reference file and its
      ten variants, drawing twenty values from the log's current end. */
  lemma StepWrites(w: World, env: Env, note: Note)
    requires !Exists(w, NoteDir(env.sep, note.name))
    ensures NoteWritten(Step(w, env, note), env, note, |w.drawn|)
  {
    var c := WithReference(w, env, note);
    VariantsWrite(c, env, note, VariantCount);
    var ref := ReferencePath(env.sep, note.name);
    assert ref in Touched(env.sep, note.name);
    forall j | 0 <= j < 10 ensures ref != VariantPath(env.sep, note.name, j) {
      NoteFileNamesDistinct(env.sep, note.name, j, j);
    }
    VariantsRefStays(c, env, note, VariantCount, ref);
  }

  lemma {:induction false} VariantsRefStays(w: World, env: Env, note: Note, count: nat, p: string)
    requires count <= 10
    requires forall j :: 0 <= j < 10 ==> p != VariantPath(env.sep, note.name, j)
    ensures Unchanged(w, Variants(w, env, note, count), p)
  {
    if count > 0 {
      VariantsRefStays(w, env, note, count - 1, p);
    }
  }

  // ---------------------------------------------------------------------
  // The outer loop

  /** A run over `notes` leaves alone every path that no note it creates
      could write. */
  lemma {:induction false} RunFrame(w: World, env: Env, notes: seq<Note>, p: string)
    requires UniqueNames(notes) && PlainNames(env.sep, notes)
    requires forall i :: 0 <= i < |notes| && !Exists(w, NoteDir(env.sep, notes[i].name)) ==>
      p !in Touched(env.sep, notes[i].name)
    ensures Unchanged(w, RunNotes(w, env, notes), p)
    decreases |notes|, 1
  {
    if notes != [] {
      var n := |notes| - 1;
      var pre, last := notes[..n], notes[n];
      RunFrame(w, env, pre, p);
      var mid := RunNotes(w, env, pre);
      if !Exists(mid, NoteDir(env.sep, last.name)) {
        FreshAtTurn(w, env, notes, n);
        StepFrame(mid, env, last, p);
      }
    }
  }

  /** When the loop reaches note `i`, its directory exists exactly when it
      existed before the run. */
  lemma {:induction false} FreshAtTurn(w: World, env: Env, notes: seq<Note>, i: nat)
    requires UniqueNames(notes) && PlainNames(env.sep, notes) && i < |notes|
    ensures Exists(RunNotes(w, env, notes[..i]), NoteDir(env.sep, notes[i].name)) ==
            Exists(w, NoteDir(env.sep, notes[i].name))
    decreases i + 1, 0
  {
    var pre := notes[..i];
    var d := NoteDir(env.sep, notes[i].name);
    assert InNoteTree(env.sep, notes[i].name, d);
    forall k | 0 <= k < |pre| && !Exists(w, NoteDir(env.sep, pre[k].name))
      ensures d !in Touched(env.sep, pre[k].name)
    {
      TouchedElsewhere(env.sep, notes[i].name, pre[k].name, d);
    }
    RunFrame(w, env, pre, d);
  }

  /** Each run draws twenty values per note whose directory was missing, and
      only appends to the log. */
  lemma {:induction false} RunDraws(w: World, env: Env, notes: seq<Note>)
    requires UniqueNames(notes) && PlainNames(env.sep, notes)
    ensures var r := RunNotes(w, env, notes);
      w.drawn <= r.drawn && |r.drawn| == |w.drawn| + 20 * CountFresh(w, env.sep, notes)
  {
    if notes != [] {
      var n := |notes| - 1;
      RunDraws(w, env, notes[..n]);
      FreshAtTurn(w, env, notes, n);
    }
  }

  /** Once written, a note stays written while later steps touch none of its
      paths and only append draws. */
  lemma NoteWrittenStays(w: World, r: World, env: Env, note: Note, base: nat)
    requires NoteWritten(w, env, note, base) && w.drawn <= r.drawn
    requires forall p :: p in Touched(env.sep, note.name) ==> Unchanged(w, r, p)
    ensures NoteWritten(r, env, note, base)
  {
    assert NoteDir(env.sep, note.name) in Touched(env.sep, note.name);
    assert ReferencePath(env.sep, note.name) in Touched(env.sep, note.name);
    forall j | 0 <= j < VariantCount ensures VariantFileOk(r, env, note, base, j) {
      assert VariantPath(env.sep, note.name, j) in Touched(env.sep, note.name);
      VariantFileStays(w, r, env, note, base, j);
    }
  }

  /** A step for one note touches none of another note's paths. */
  lemma StepSparesOtherNote(w: World, env: Env, stepped: Note, other: Note)
    requires PlainName(env.sep, stepped.name) && PlainName(env.sep, other.name) && stepped.name != other.name
    ensures forall p :: p in Touched(env.sep, other.name) ==> Unchanged(w, Step(w, env, stepped), p)
  {
    forall p | p in Touched(env.sep, other.name) ensures Unchanged(w, Step(w, env, stepped), p) {
      TouchedInNoteTree(env.sep, other.name, p);
      TouchedElsewhere(env.sep, other.name, stepped.name, p);
      StepFrame(w, env, stepped, p);
    }
  }

  /** The step for the last note of `notes` writes it when it is new. */
  lemma WrittenAtOwnTurn(w: World, env: Env, notes: seq<Note>)
    requires UniqueNames(notes) && PlainNames(env.sep, notes) && notes != []
    requires !Exists(w, NoteDir(env.sep, notes[|notes| - 1].name))
    ensures NoteWritten(RunNotes(w, env, notes), env, notes[|notes| - 1],
                        BlockStart(w, env.sep, notes, |notes| - 1))
  {
    var n := |notes| - 1;
    var mid := RunNotes(w, env, notes[..n]);
    FreshAtTurn(w, env, notes, n);
    assert UniqueNames(notes[..n]) && PlainNames(env.sep, notes[..n]);
    RunDraws(w, env, notes[..n]);
    assert BlockStart(w, env.sep, notes, n) == |mid.drawn|;
    StepWrites(mid, env, notes[n]);
    assert RunNotes(w, env, notes) == Step(mid, env, notes[n]);
  }

  /** A run writes every new note's directory and eleven files. */
  lemma {:induction false} RunWrites(w: World, env: Env, notes: seq<Note>, i: nat)
    requires UniqueNames(notes) && PlainNames(env.sep, notes) && i < |notes|
    requires !Exists(w, NoteDir(env.sep, notes[i].name))
    ensures NoteWritten(RunNotes(w, env, notes), env, notes[i], BlockStart(w, env.sep, notes, i))
  {
    var n := |notes| - 1;
    if i == n {
      WrittenAtOwnTurn(w, env, notes);
    } else {
      RunWrites(w, env, notes[..n], i);
      WrittenBeforeLastTurn(w, env, notes, i);
    }
  }

  /** The step for the last note of `notes` keeps an earlier note written. */
  lemma WrittenBeforeLastTurn(w: World, env: Env, notes: seq<Note>, i: nat)
    requires UniqueNames(notes) && PlainNames(env.sep, notes) && i < |notes| - 1
    requires NoteWritten(RunNotes(w, env, notes[..|notes| - 1]), env, notes[i],
                         BlockStart(w, env.sep, notes[..|notes| - 1], i))
    ensures NoteWritten(RunNotes(w, env, notes), env, notes[i], BlockStart(w, env.sep, notes, i))
  {
    var n := |notes| - 1;
    var mid := RunNotes(w, env, notes[..n]);
    BlockStartOfPrefix(w, env.sep, notes, n, i);
    StepSparesOtherNote(mid, env, notes[n], notes[i]);
    NoteWrittenStays(mid, Step(mid, env, notes[n]), env, notes[i], BlockStart(w, env.sep, notes, i));
  }

  lemma BlockStartOfPrefix(w: World, sep: char, notes: seq<Note>, m: nat, i: nat)
    requires i <= m <= |notes|
    ensures BlockStart(w, sep, notes[..m], i) == BlockStart(w, sep, notes, i)
  {
    assert notes[..m][..i] == notes[..i];
  }

  // ---------------------------------------------------------------------
  // Whole runs

  lemma RootStepFrame(w: World, p: string)
    requires p != Root
    ensures Unchanged(w, EnsureRoot(w), p)
    ensures EnsureRoot(w).drawn == w.drawn
  {
  }

  lemma {:induction false} CountFreshAfterRoot(w: World, sep: char, notes: seq<Note>)
    ensures CountFresh(EnsureRoot(w), sep, notes) == CountFresh(w, sep, notes)
  {
    if notes != [] {
      CountFreshAfterRoot(w, sep, notes[..|notes| - 1]);
      RootOutsideNoteTrees(sep, notes[|notes| - 1].name);
      assert NoteDir(sep, notes[|notes| - 1].name) in Touched(sep, notes[|notes| - 1].name);
    }
  }

  /** After a run the root exists; an existing root is left as it was. */
  lemma GenerateKeepsRoot(w: World, env: Env, table: seq<Note>)
    requires UniqueNames(table) && PlainNames(env.sep, table)
    ensures var r := Generate(w, env, table);
      Exists(r, Root) &&
      (Exists(w, Root) ==> Unchanged(w, r, Root)) &&
      (!Exists(w, Root) ==> Root in r.dirs)
  {
    forall i | 0 <= i < |table| ensures Root !in Touched(env.sep, table[i].name) {
      RootOutsideNoteTrees(env.sep, table[i].name);
    }
    RunFrame(EnsureRoot(w), env, table, Root);
  }

  /** A note whose directory already exists is skipped: nothing in its tree
      changes. */
  lemma GenerateSkipsExistingNote(w: World, env: Env, table: seq<Note>, i: nat, p: string)
    requires UniqueNames(table) && PlainNames(env.sep, table) && i < |table|
    requires Exists(w, NoteDir(env.sep, table[i].name))
    requires InNoteTree(env.sep, table[i].name, p)
    ensures Unchanged(w, Generate(w, env, table), p)
  {
    var w0 := EnsureRoot(w);
    var d := NoteDir(env.sep, table[i].name);
    RootOutsideNoteTrees(env.sep, table[i].name);
    assert d in Touched(env.sep, table[i].name);
    RootStepFrame(w, d);
    forall k | 0 <= k < |table| && !Exists(w0, NoteDir(env.sep, table[k].name))
      ensures p !in Touched(env.sep, table[k].name)
    {
      TouchedElsewhere(env.sep, table[i].name, table[k].name, p);
    }
    RootStepFrame(w, p);
    RunFrame(w0, env, table, p);
  }

  /** A run draws exactly twenty values for each note whose directory was
      missing and none for the others, appending to the calls made before. */
  lemma GenerateDraws(w: World, env: Env, table: seq<Note>)
    requires UniqueNames(table) && PlainNames(env.sep, table)
    ensures var r := Generate(w, env, table);
      w.drawn <= r.drawn && |r.drawn| == |w.drawn| + 20 * CountFresh(w, env.sep, table)
  {
    RunDraws(EnsureRoot(w), env, table);
    CountFreshAfterRoot(w, env.sep, table);
  }

  /** A note whose directory was missing gets it, the reference file at
      amplitude 20 and ten variants, variant `j` made from draws `2j` and
      `2j + 1` of its block of twenty; the block follows the blocks of the
      new notes before it in the table. Nothing else in its tree changes. */
  lemma GenerateWritesNewNote(w: World, env: Env, table: seq<Note>, i: nat)
    requires UniqueNames(table) && PlainNames(env.sep, table) && i < |table|
    requires !Exists(w, NoteDir(env.sep, table[i].name))
    ensures NoteWritten(Generate(w, env, table), env, table[i], BlockStart(w, env.sep, table, i))
    ensures forall p :: InNoteTree(env.sep, table[i].name, p) && p !in Touched(env.sep, table[i].name) ==>
      Unchanged(w, Generate(w, env, table), p)
  {
    var w0 := EnsureRoot(w);
    var name := table[i].name;
    var d := NoteDir(env.sep, name);
    RootOutsideNoteTrees(env.sep, name);
    assert d in Touched(env.sep, name);
    RootStepFrame(w, d);
    RunWrites(w0, env, table, i);
    CountFreshAfterRoot(w, env.sep, table[..i]);
    assert BlockStart(w0, env.sep, table, i) == BlockStart(w, env.sep, table, i);
    forall p | InNoteTree(env.sep, name, p) && p !in Touched(env.sep, name)
      ensures Unchanged(w, Generate(w, env, table), p)
    {
      forall k | 0 <= k < |table| && !Exists(w0, NoteDir(env.sep, table[k].name))
        ensures p !in Touched(env.sep, table[k].name)
      {
        if k != i {
          TouchedElsewhere(env.sep, name, table[k].name, p);
        }
      }
      RootStepFrame(w, p);
      RunFrame(w0, env, table, p);
    }
  }

  /** A run over notes whose directories all exist changes nothing. */
  lemma {:induction false} RunSkipsPresentNotes(w: World, env: Env, notes: seq<Note>)
    requires forall i :: 0 <= i < |notes| ==> Exists(w, NoteDir(env.sep, notes[i].name))
    ensures RunNotes(w, env, notes) == w
  {
    if notes != [] {
      var pre := notes[..|notes| - 1];
      assert forall i :: 0 <= i < |pre| ==> pre[i] == notes[i];
      RunSkipsPresentNotes(w, env, pre);
    }
  }

  /** After a run something exists at every note's directory path: the
      directory the run made, or whatever was there before. */
  lemma GenerateLeavesEveryNoteDir(w: World, env: Env, table: seq<Note>)
    requires UniqueNames(table) && PlainNames(env.sep, table)
    ensures forall i :: 0 <= i < |table| ==> Exists(Generate(w, env, table), NoteDir(env.sep, table[i].name))
  {
    forall i | 0 <= i < |table|
      ensures Exists(Generate(w, env, table), NoteDir(env.sep, table[i].name))
    {
      var d := NoteDir(env.sep, table[i].name);
      if Exists(w, d) {
        GenerateSkipsExistingNote(w, env, table, i, d);
      } else {
        GenerateWritesNewNote(w, env, table, i);
      }
    }
  }

  /** Running the generator again on what a run left behind changes nothing
      and draws nothing: every directory it would check now exists. */
  lemma GenerateIdempotent(w: World, env: Env, table: seq<Note>)
    requires UniqueNames(table) && PlainNames(env.sep, table)
    ensures Generate(Generate(w, env, table), env, table) == Generate(w, env, table)
  {
    var r := Generate(w, env, table);
    GenerateKeepsRoot(w, env, table);
    GenerateLeavesEveryNoteDir(w, env, table);
    RunSkipsPresentNotes(r, env, table);
  }
}
