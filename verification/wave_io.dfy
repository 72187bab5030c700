/** The imperative part of `create_wav`: a wave writer object that receives
    its header fields and then one packed frame at a time, over an abstract
    file system of directory and file paths. */
module WaveIo {
  import opened Synthesis

  /** The file system as the generator sees it: the paths of directories, and
      the closed wave files by path. */
  class FileSystem {
    var dirs: set<string>
    var files: map<string, Wav>

    constructor (dirs: set<string>, files: map<string, Wav>)
      ensures this.dirs == dirs && this.files == files
    {
      this.dirs := dirs;
      this.files := files;
    }

    /** `os.path.exists`: a directory or a file at the path. */
    predicate Exists(path: string)
      reads this
    {
      path in dirs || path in files
    }

    /** `os.mkdir`: fails, changing nothing, when the path already exists. */
    method MakeDir(path: string) returns (ok: bool)
      modifies this
      ensures ok == !old(Exists(path))
      ensures dirs == if ok then old(dirs) + {path} else old(dirs)
      ensures files == old(files)
    {
      ok := !Exists(path);
      if ok {
        dirs := dirs + {path};
      }
    }

    /** Closing a writer leaves the file at its path; an earlier file there
        is replaced. */
    method Store(path: string, wav: Wav)
      modifies this
      ensures files == old(files)[path := wav]
      ensures dirs == old(dirs)
    {
      files := files[path := wav];
    }
  }

  /** The object `wave.open(path, "w")` returns. */
  class WaveWriter {
    const path: string
    var channels: int
    var sampleWidth: int
    var frameRate: int
    var data: seq<byte>

    constructor Open(path: string)
      ensures this.path == path
      ensures channels == 0 && sampleWidth == 0 && frameRate == 0 && data == []
    {
      this.path := path;
      channels, sampleWidth, frameRate := 0, 0, 0;
      data := [];
    }

    /** `writeframesraw`: appends the bytes as they are; the header is not
        consulted. */
    method WriteFramesRaw(bytes: seq<byte>)
      modifies this
      ensures data == old(data) + bytes
      ensures channels == old(channels) && sampleWidth == old(sampleWidth) && frameRate == old(frameRate)
    {
      data := data + bytes;
    }

    /** `close`: the file now holds the header and the frames written. */
    method Close(fs: FileSystem)
      modifies fs
      ensures fs.files == old(fs.files)[path := Wav(channels, sampleWidth, frameRate, data)]
      ensures fs.dirs == old(fs.dirs)
    {
      fs.Store(path, Wav(channels, sampleWidth, frameRate, data));
    }
  }

  /** `create_wav(filename, freq, sample_rate=44100.0, amplitude=20)`: writes
      `filename + ".wav"`. Every frame is packed in time order; when a frame
      does not fit a signed byte, `struct.pack` raises; the model then closes
      the file on the frames written before it, standing for what the
      writer's finaliser leaves, and reports `ok == false`. */
  method CreateWav(fs: FileSystem, sine: Sine, filename: string, freq: real,
                   sampleRate: real := 44100.0, amplitude: int := 20) returns (ok: bool)
    requires sampleRate != 0.0
    modifies fs
    ensures fs.dirs == old(fs.dirs)
    ensures ok <==> AllFit(Frames(freq, sampleRate, amplitude, sine))
    ensures ok ==>
      fs.files == old(fs.files)[filename + ".wav" := WavOf(Frames(freq, sampleRate, amplitude, sine))]
    ensures sampleRate == SampleRate as real && -127 <= amplitude <= 127 ==>
      ok && fs.files == old(fs.files)[filename + ".wav" := ToneFile(freq, amplitude, sine)]
    ensures !ok ==> exists m ::
      0 <= m < FrameCount && !(-128 <= Frames(freq, sampleRate, amplitude, sine)[m] <= 127) &&
      AllFit(Frames(freq, sampleRate, amplitude, sine)[..m]) &&
      fs.files == old(fs.files)[filename + ".wav" := WavOf(Frames(freq, sampleRate, amplitude, sine)[..m])]
  {
    ghost var frames := Frames(freq, sampleRate, amplitude, sine);
    var y := Samples(freq, sampleRate, amplitude, sine);
    var obj := new WaveWriter.Open(filename + ".wav");
    obj.channels := Channels;
    obj.sampleWidth := SampleWidth;
    obj.frameRate := SampleRate;
    ok := true;
    var i := 0;
    while i < |y| && ok
      modifies obj
      decreases |y| - i, ok
      invariant 0 <= i <= |y| == |frames|
      invariant AllFit(frames[..i])
      invariant obj.data == Encode(frames[..i])
      invariant obj.path == filename + ".wav"
      invariant obj.channels == Channels && obj.sampleWidth == SampleWidth && obj.frameRate == SampleRate
      invariant !ok ==> i < |y| && !(-128 <= frames[i] <= 127)
    {
      FrameIsTruncatedSample(freq, sampleRate, amplitude, sine, i);
      var packed := PackSigned(Truncate(y[i]));
      if packed.StructError? {
        ok := false;
      } else {
        EncodePrefixStep(frames, i);
        obj.WriteFramesRaw([packed.b]);
        i := i + 1;
      }
    }
    obj.Close(fs);
    if ok {
      assert frames[..i] == frames;
    }
    if sampleRate == SampleRate as real && -127 <= amplitude <= 127 {
      FramesFit(freq, sampleRate, amplitude, sine);
    }
  }
}
