# Synthetic note dataset generator and positional dictionary lookup

This project models two parts of a musical-note classification repository.

The first is the synthetic audio generator, `src/Generating_Audio_Data.py`. It makes a dataset root directory,
`Simulated_Dataset`. For every note in an insertion-ordered table of note names and frequencies, it does one of two things:

- If a directory for the note already exists, the note is skipped.
- Otherwise it creates that directory and writes eleven wave files into it:
  - a reference sine tone at the note's frequency with amplitude 20;
  - ten variants, each with an amplitude drawn by `randint(5, 20)` and a frequency shifted by `uniform(-10, 10)`.

Every file holds 882000 one-byte samples: 20 seconds at 44100 Hz, as the code intends. Each sample is `amplitude * sin(2*pi*freq*t)`, truncated toward zero and packed as one signed byte. The header, however, declares a sample width of 2 bytes, so a reader that trusts it sees 441000 frames, that is 10 seconds (`Synthesis.ToneFileLayout`).

The second is `get_nth_key`, which appears twice, identically, in `src/CNN/CNN.py` and `src/LSTM/LSTM.py`. It returns the key at a Python-style index (negative indices count from the end) of a dictionary's iteration order, or raises `IndexError`.

The model is split into modules:

- `DictIndex` (`dict_index.dfy`):
  - the reference definition `NthKey`;
  - the imperative scan `GetNthKey`, proved equal to it;
  - lemmas about which indices reach which key.
- `Synthesis` (`synthesis.dfy`): the pure part of `create_wav`. This covers time points, samples, truncation, signed-byte packing with its round trip, and the resulting wave file value.
- `RandomStream` (`random_stream.dfy`): the seeded module-level generator. It is a class whose log of calls grows by one entry per `randint`/`uniform`. The values are given by two sources that depend only on the calls made so far.
- `WaveIo` (`wave_io.dfy`): the imperative part of `create_wav`. This is a file system object and a wave writer object, and `CreateWav`, which packs and writes frame by frame. It is proved to leave the file the pure model describes, or, when a frame does not fit a signed byte, the prefix written before `struct.pack` raised.
- `Dataset` (`dataset.dfy`): one run of the `__main__` block as a function, `Generate`, on the directories, files and draw log. Lemmas state what a run guarantees:
  - the root exists afterwards;
  - notes whose directory exists are left alone;
  - every new note gets its directory and eleven files, with variant `j` made from draws `2j` and `2j+1` of its own block of twenty draws;
  - exactly twenty draws are made per new note;
  - a second run changes nothing.
- `GeneratorMain` (`generator_main.dfy`): the `__main__` block as imperative code over the file system and generator objects. Its final state is proved equal to `Generate`.

## Model

| member | source | states |
|---|---|---|
| DictIndex.NthKey | src/CNN/CNN.py:41-47 | a key is returned exactly when `-len <= n < len`, and it is then a key of the dictionary |
| DictIndex.GetNthKey | src/CNN/CNN.py:41-47 | a non-negative index in range yields the key at that position; a negative index in range yields the key at `n + len`; any other index raises `IndexError`; the result equals `NthKey` |
| DictIndex.IndexOf | src/LSTM/LSTM.py:38-40 | the position `enumerate` reaches a key at: the key is there and at no earlier position |
| DictIndex.LookupByOwnIndex | src/LSTM/LSTM.py:35-41 | every key is returned for its own position and for that position minus the length |
| DictIndex.LookupIndicesOfKey | src/LSTM/LSTM.py:35-41 | with distinct keys, a key is returned for index `n` if and only if `n` is its position or its position minus the length |
| DictIndex.NegativeIndexAliases | src/CNN/CNN.py:42-43 | a negative index in range names the same key as that index plus the length |
| DictIndex.EmptyDictionaryRaises | src/CNN/CNN.py:44-47 | an empty dictionary raises for every index, the default 0 included |
| DictIndex.DefaultIsFirstKey | src/CNN/CNN.py:41 | with the default index a non-empty dictionary yields its first key |
| Synthesis.TimePoints | src/Generating_Audio_Data.py:27-32 | there are `sr * 20` = 882000 time points whatever sample rate is passed; they start at 0, and any two lie `(j - i) / sample_rate` apart |
| Synthesis.Samples | src/Generating_Audio_Data.py:34 | one sample per time point |
| Synthesis.PhaseAtTimePoint | src/Generating_Audio_Data.py:31-34 | the sine's argument for sample `i` is `omega` times time point `i` |
| Synthesis.ScaledSineBound | src/Generating_Audio_Data.py:34 | a value in [-1, 1] scaled by a whole amplitude lies within the amplitude's magnitude |
| Synthesis.SamplesWithinAmplitude | src/Generating_Audio_Data.py:34 | every sample lies within the amplitude's magnitude |
| Synthesis.Truncate | src/Generating_Audio_Data.py:45 | `int(x)`: the integer toward zero that is less than one away from `x`, for both signs |
| Synthesis.TruncateIsOdd | src/Generating_Audio_Data.py:45 | truncation commutes with negation, unlike the floor |
| Synthesis.Frames | src/Generating_Audio_Data.py:43-45 | one integer frame per sample |
| Synthesis.FrameIsTruncatedSample | src/Generating_Audio_Data.py:43-45 | frame `i` is the truncation of sample `i` |
| Synthesis.FramesWithinAmplitude | src/Generating_Audio_Data.py:43-45 | every frame lies within the amplitude's magnitude |
| Synthesis.PackSigned | src/Generating_Audio_Data.py:45 | `struct.pack("b", v)` gives a byte if and only if `-128 <= v <= 127`, and raises otherwise |
| Synthesis.UnpackSigned | src/Generating_Audio_Data.py:45 | a byte reads back as a value in [-128, 127] |
| Synthesis.PackThenUnpack | src/Generating_Audio_Data.py:45 | packing a value in range and reading the byte back gives the value |
| Synthesis.UnpackThenPack | src/Generating_Audio_Data.py:45 | reading a byte and packing the value gives the byte |
| Synthesis.FramesFit | src/Generating_Audio_Data.py:25 | with an amplitude of magnitude at most 127, such as the default 20, every frame packs |
| Synthesis.Encode | src/Generating_Audio_Data.py:43-46 | the payload has one byte per frame, and byte `i` reads back as frame `i` |
| Synthesis.EncodeAppend | src/Generating_Audio_Data.py:46 | writing one more frame appends exactly its byte |
| Synthesis.WavOf | src/Generating_Audio_Data.py:38-47 | a written file declares 1 channel, sample width 2 and frame rate `sr`, and holds one byte per frame, byte `i` reading back as frame `i` |
| Synthesis.ToneFile | src/Generating_Audio_Data.py:38-47 | a tone file at the module rate declares 1 channel, sample width 2 and 44100 Hz, and holds 882000 bytes |
| Synthesis.ToneFileLayout | src/Generating_Audio_Data.py:38-47 | a tone file declares 1 channel, sample width 2 and 44100 Hz, and holds 882000 one-byte frames, each reading back as its frame within the amplitude; a reader trusting the header therefore sees 441000 frames |
| RandomStream.RandIntValue | src/Generating_Audio_Data.py:66 | `randint(lo, hi)` lies in [lo, hi], both ends included |
| RandomStream.UniformValue | src/Generating_Audio_Data.py:67 | `uniform(a, b)` lies in [a, b] and below `b` when `a < b` |
| RandomStream.ScaleBounds | src/Generating_Audio_Data.py:67 | `(b - a) * random()`, with `random()` in [0, 1), lies in [0, b - a] and below `b - a` when `a < b` |
| RandomStream.Random.Seeded | src/Generating_Audio_Data.py:14 | the seeded generator has made no calls yet |
| RandomStream.Random.RandInt | src/Generating_Audio_Data.py:66 | returns the `randint` value fixed by the calls before it, and logs the call |
| RandomStream.Random.Uniform | src/Generating_Audio_Data.py:67 | returns the `uniform` value fixed by the calls before it, and logs the call |
| WaveIo.FileSystem.MakeDir | src/Generating_Audio_Data.py:53 | `os.mkdir` adds the directory when nothing is at the path and changes nothing otherwise; files are untouched |
| WaveIo.FileSystem.Store | src/Generating_Audio_Data.py:47 | a closed file replaces whatever file was at its path; directories are untouched |
| WaveIo.WaveWriter.Open | src/Generating_Audio_Data.py:38 | a new writer for the path, with an empty header and no frames |
| WaveIo.WaveWriter.WriteFramesRaw | src/Generating_Audio_Data.py:46 | appends the bytes as given and leaves the header alone |
| WaveIo.WaveWriter.Close | src/Generating_Audio_Data.py:47 | the file system now holds the header and the frames at the writer's path |
| WaveIo.CreateWav | src/Generating_Audio_Data.py:25-47 | `sample_rate` defaults to 44100.0 and `amplitude` to 20. It succeeds if and only if every frame fits a signed byte. On success, `filename.wav` holds the header and all frames. Otherwise some frame `m` does not fit, all before it do, and the file holds exactly frames `0..m-1`. At the module sample rate with an amplitude of magnitude at most 127 it succeeds and writes the tone file. Directories are unchanged |
| Dataset.NoteDirLayout | src/Generating_Audio_Data.py:60 | `os.path.join(path, key)` is the root, the separator, then the key |
| Dataset.DigitValue | src/Generating_Audio_Data.py:70 | `str(j)` for `j < 10` is one decimal digit whose value is `j`, so different indices give different strings |
| Dataset.ReferencePathLayout | src/Generating_Audio_Data.py:64 | the reference file is the note directory, a backslash, then the key and `.wav` |
| Dataset.VariantPathLayout | src/Generating_Audio_Data.py:70-71 | variant file `j` is the note directory, a backslash, then the key, `str(j)` and `.wav` |
| Dataset.Variant | src/Generating_Audio_Data.py:65-71 | one inner iteration makes no directory and appends two draws to the log |
| Dataset.Variants | src/Generating_Audio_Data.py:65-71 | `count` inner iterations make no directory and append `2 * count` draws |
| Dataset.WithReference | src/Generating_Audio_Data.py:61-64 | the note directory is made and the reference file holds the amplitude-20 tone at the note's frequency; nothing is drawn and no other path changes |
| Dataset.Step | src/Generating_Audio_Data.py:60-74 | a note whose path exists leaves everything as it was; otherwise its directory is made and twenty draws are appended. Nothing is removed: directories, files and draws only grow |
| Dataset.RunNotes | src/Generating_Audio_Data.py:58-74 | the outer loop removes no directory, file or draw |
| Dataset.EnsureRoot | src/Generating_Audio_Data.py:52-56 | afterwards the root exists; an existing path is left as it was, and no other path, file or draw changes |
| Dataset.Generate | src/Generating_Audio_Data.py:50-74 | after a run the root exists, and nothing that existed before is removed |
| Dataset.NoteFileNamesDistinct | src/Generating_Audio_Data.py:64-70 | the reference and the ten variant paths of a note are pairwise different |
| Dataset.TouchedInNoteTree | src/Generating_Audio_Data.py:60-70 | every path made for a note is its directory or starts with the directory and a backslash |
| Dataset.NoteTreesDisjoint | src/Generating_Audio_Data.py:60 | two different note names free of the backslash and the separator have disjoint trees |
| Dataset.TouchedElsewhere | src/Generating_Audio_Data.py:60-70 | no path in one note's tree is made for another note |
| Dataset.RootOutsideNoteTrees | src/Generating_Audio_Data.py:52-60 | the root path is in no note's tree and is never made for a note |
| Dataset.VariantsWrite | src/Generating_Audio_Data.py:65-71 | after `count` inner iterations, each variant `j < count` is on file. Its amplitude in [5, 20] and its shift in [-10, 10) are draws `2j` and `2j+1` from the log's start, each the value after exactly the calls before it |
| Dataset.VariantJustWritten | src/Generating_Audio_Data.py:65-71 | the variant made when the log holds `base + 2j` draws is on file with its amplitude and shift being draws `base + 2j` and `base + 2j + 1` |
| Dataset.VariantsFrame | src/Generating_Audio_Data.py:65-71 | the inner loop changes no path outside the note's eleven paths |
| Dataset.StepFrame | src/Generating_Audio_Data.py:60-74 | an outer iteration changes no path outside the note's directory and files |
| Dataset.StepWrites | src/Generating_Audio_Data.py:61-71 | an outer iteration for a new note makes its directory, the amplitude-20 reference file and the ten variants from the next twenty draws |
| Dataset.RunFrame | src/Generating_Audio_Data.py:58-74 | the outer loop changes no path that no new note of the table could write |
| Dataset.FreshAtTurn | src/Generating_Audio_Data.py:58-61 | when the loop reaches a note, its path exists exactly when it existed before the run |
| Dataset.RunDraws | src/Generating_Audio_Data.py:58-71 | the outer loop appends exactly twenty draws per note whose path was missing |
| Dataset.StepSparesOtherNote | src/Generating_Audio_Data.py:58-74 | an outer iteration leaves every path of another note as it was |
| Dataset.RunWrites | src/Generating_Audio_Data.py:58-74 | after the outer loop every new note is written from its own block of twenty draws, which follows the blocks of the new notes before it |
| Dataset.RootStepFrame | src/Generating_Audio_Data.py:52-53 | creating the root changes no other path and draws nothing |
| Dataset.GenerateKeepsRoot | src/Generating_Audio_Data.py:52-56 | after a run the root exists; an existing root is unchanged, and a missing one becomes a directory |
| Dataset.GenerateSkipsExistingNote | src/Generating_Audio_Data.py:61 | a note whose path existed before the run has nothing in its tree changed |
| Dataset.GenerateDraws | src/Generating_Audio_Data.py:58-71 | a run only appends to the log, twenty draws per new note |
| Dataset.GenerateWritesNewNote | src/Generating_Audio_Data.py:58-74 | a new note gets its directory, the reference file and ten variants from its block of draws, and nothing else in its tree changes |
| Dataset.RunSkipsPresentNotes | src/Generating_Audio_Data.py:58-61 | a loop over notes whose paths all exist changes nothing |
| Dataset.GenerateLeavesEveryNoteDir | src/Generating_Audio_Data.py:58-74 | after a run something exists at every note's directory path |
| Dataset.GenerateIdempotent | src/Generating_Audio_Data.py:50-74 | a second run over the result of a run changes nothing and draws nothing |
| GeneratorMain.WriteVariant | src/Generating_Audio_Data.py:65-71 | one inner iteration on the objects has exactly the effect of `Variant` |
| GeneratorMain.WriteReference | src/Generating_Audio_Data.py:61-64 | making a new note's directory and its reference tone on the objects has exactly the effect of `WithReference` |
| GeneratorMain.WriteNote | src/Generating_Audio_Data.py:61-71 | writing a new note on the objects has exactly the effect of `Step` |
| GeneratorMain.GenerateDataset | src/Generating_Audio_Data.py:50-74 | a run on the objects leaves the directories, files and draw log that `Generate` describes |

## Left out

- Floating point is modelled by reals. `np.sin` is any function with values in [-1, 1], and `np.pi` is a real constant. Rounding in `omega * t_seq` and in `value + freq_shift` is not modelled, so frame values are exact only up to that rounding.
- The Mersenne Twister behind `random.seed(20)` is not modelled. `randint` and `uniform` return values from sources that depend only on the calls made before. This fixes the order and the ranges of the draws but not their values.
- `uniform(-10, 10)` can reach 10 through float rounding; over reals the shift stays below 10.
- The byte layout of the RIFF header is not modelled. A file is its header fields (channels, sample width, frame rate) and the raw frame bytes.
- WaveIo.CreateWav: `struct.pack("b", ...)` raises `struct.error` for a frame outside [-128, 127]; it does not wrap. In the source that exception skips `obj.close()` and, uncaught, ends the whole run. The model instead closes the writer on the frames written so far and returns `ok == false`; that prefix file stands for what the writer's finaliser leaves behind, and the run would end there. Its callers here ignore `ok` and go on. The generator's amplitudes (at most 20) never reach this path.
- Error paths for arguments the generator never passes are excluded by preconditions: `sample_rate == 0` (`ZeroDivisionError` at line 27) is excluded by `sampleRate != 0.0`; `randint(lo, hi)` with `lo > hi` (`ValueError`) by `lo <= hi`; a non-integer amplitude by the type `int`.
- `print` calls, the commented-out plotting and the `matplotlib` import are left out: they write only to the console.
- The note table `notes_to_frequency` is a parameter. `Notes_to_Frequency` is not part of this model.
- Paths are strings. `os.path.join` is `root + sep + key`, with the separator a parameter. Its special cases for absolute or drive-letter components are not modelled.
  - On a host whose separator is not a backslash, the literal backslash in file names makes those files sit beside the note directory rather than inside it. The model is about path strings and holds either way.
- `os.mkdir` failures other than an existing path are not modelled, for example a missing parent when the root path is a file. The same goes for `wave.open` failures (permissions, disk full).
- A wave file appears in the model only when it is closed; the empty file that exists while it is being written is not represented.
- Dataset.RunFrame, Dataset.FreshAtTurn, Dataset.RunDraws, Dataset.RunWrites, Dataset.GenerateKeepsRoot, Dataset.GenerateSkipsExistingNote, Dataset.GenerateDraws, Dataset.GenerateWritesNewNote, Dataset.GenerateLeavesEveryNoteDir, Dataset.GenerateIdempotent: each requires distinct note names that contain neither a backslash nor the host separator. Dictionary keys are always distinct. The character condition is an assumption about the note table, which is not part of this model; without it one note's files could land in another note's tree.
- Everything else in `src/CNN/CNN.py` and `src/LSTM/LSTM.py` is delegated to Keras, scikit-learn, pandas and JSON files, and is not part of this model. That covers data loading, model building, training, evaluation, plotting and reports. The same goes for the prediction scripts.
