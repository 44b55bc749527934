/** The voice activity detector: frame-size arithmetic, and
    detect_voice_from_file, which reads 16-bit audio frame by frame, starts
    recording at the first speech frame and stops after enough trailing
    silence. The speech test of a single frame is a foreign call and stays a
    parameter. */
module Vad {
  import opened Base

  /** Python's int() of a quotient: truncation toward zero. */
  function TruncDiv(a: int, b: int): (q: int)
    requires b > 0
    ensures a >= 0 ==> q * b <= a < q * b + b
    ensures a < 0 ==> q * b - b < a <= q * b
  {
    if a >= 0 then a / b else -((-a) / b)
  }

  /** The detector's settings; the aggressiveness mode belongs to the foreign detector. */
  datatype VadConfig = VadConfig(sampleRate: int, frameDurationMs: int, maxSilenceMs: int)

  const DefaultVad: VadConfig := VadConfig(16000, 30, 2000)

  /** Samples per frame: sample rate times frame duration, in seconds, truncated. */
  function FrameSize(c: VadConfig): int
  {
    TruncDiv(c.sampleRate * c.frameDurationMs, 1000)
  }

  /** Bytes per frame: two per 16-bit sample. */
  function FrameBytes(c: VadConfig): int
  {
    2 * FrameSize(c)
  }

  /** The frame size is the exact sample count, rounded toward zero. */
  lemma FrameSizeBounds(c: VadConfig)
    ensures var p := c.sampleRate * c.frameDurationMs;
            && (p >= 0 ==> 0 <= FrameSize(c) && FrameSize(c) * 1000 <= p < FrameSize(c) * 1000 + 1000)
            && (p < 0 ==> FrameSize(c) <= 0 && FrameSize(c) * 1000 - 1000 < p <= FrameSize(c) * 1000)
            && FrameBytes(c) % 2 == 0
  {
  }

  /** 16 kHz and 30 ms give 480 samples, 960 bytes. */
  lemma DefaultFrames()
    ensures FrameSize(DefaultVad) == 480 && FrameBytes(DefaultVad) == 960
  {
  }

  lemma {:induction false} MulLe(a: nat, b: nat, m: nat)
    requires a <= b
    ensures a * m <= b * m
  {
    if m > 0 {
      MulLe(a, b, m - 1);
      assert a * m == a * (m - 1) + a;
      assert b * m == b * (m - 1) + b;
    }
  }

  /** Division by a positive number has one quotient and one remainder. */
  lemma DivUnique(n: nat, d: nat, q: nat, r: nat)
    requires d > 0 && n == q * d + r && r < d
    ensures n / d == q && n % d == r
  {
    var q0, r0 := n / d, n % d;
    assert n == q0 * d + r0 && 0 <= r0 < d;
    if q > q0 {
      MulLe(1, q - q0, d);
    } else if q < q0 {
      MulLe(1, q0 - q, d);
    }
  }

  lemma DivStep(n: nat, d: nat)
    requires 0 < d <= n
    ensures n / d == 1 + (n - d) / d && n % d == (n - d) % d
  {
    var q, r := (n - d) / d, (n - d) % d;
    assert n == (q + 1) * d + r;
    DivUnique(n, d, q + 1, r);
  }

  lemma MultipleMod(k: nat, d: nat)
    requires d > 0
    ensures (k * d) % d == 0
  {
    DivUnique(k * d, d, k, 0);
  }

  /** The speech test on one frame. */
  type SpeechTest = seq<byte> -> bool

  /** The frames the file yields when read `fb` bytes at a time, up to the
      first short read: every full frame, in order; a trailing partial frame
      is dropped. */
  function Frames(audio: seq<byte>, fb: nat): (fs: seq<seq<byte>>)
    requires fb > 0
    ensures forall k :: 0 <= k < |fs| ==> |fs[k]| == fb
    decreases |audio|
  {
    if |audio| < fb then [] else [audio[..fb]] + Frames(audio[fb..], fb)
  }

  /** Frames joined end to end. */
  function Join(fs: seq<seq<byte>>): seq<byte>
  {
    if fs == [] then [] else fs[0] + Join(fs[1..])
  }

  lemma {:induction false} JoinAppend(a: seq<seq<byte>>, b: seq<seq<byte>>)
    ensures Join(a + b) == Join(a) + Join(b)
  {
    if a == [] {
      assert a + b == b;
    } else {
      assert (a + b)[1..] == a[1..] + b;
      JoinAppend(a[1..], b);
    }
  }

  /** Reading frame by frame loses only the tail shorter than a frame, and
      yields as many frames as the audio holds. */
  lemma {:induction false} FramesCover(audio: seq<byte>, fb: nat)
    requires fb > 0
    ensures Join(Frames(audio, fb)) <= audio
    ensures |audio| - |Join(Frames(audio, fb))| < fb
    ensures |Frames(audio, fb)| == |audio| / fb
    decreases |audio|
  {
    if |audio| >= fb {
      FramesCover(audio[fb..], fb);
      assert audio == audio[..fb] + audio[fb..];
      DivStep(|audio|, fb);
    }
  }

  /** Joined frames of one size have that size times their count. */
  lemma {:induction false} JoinLength(fs: seq<seq<byte>>, fb: nat)
    requires forall k :: 0 <= k < |fs| ==> |fs[k]| == fb
    ensures |Join(fs)| == |fs| * fb
  {
    if fs != [] {
      JoinLength(fs[1..], fb);
      assert |fs| * fb == (|fs| - 1) * fb + fb;
    }
  }

  /** The silence time the detector has counted at frame `j`: the frame
      duration for each consecutive non-speech frame ending at `j`. */
  function SilenceMs(c: VadConfig, isSpeech: SpeechTest, fs: seq<seq<byte>>, j: nat): int
    requires j < |fs|
  {
    if isSpeech(fs[j]) then 0
    else if j == 0 then c.frameDurationMs
    else SilenceMs(c, isSpeech, fs, j - 1) + c.frameDurationMs
  }

  /** The first speech frame at or after `from`. */
  function FirstSpeech(isSpeech: SpeechTest, fs: seq<seq<byte>>, from: nat): (r: Option<nat>)
    ensures r.Some? ==> from <= r.value < |fs| && isSpeech(fs[r.value])
    ensures forall i :: from <= i < |fs| && (r.None? || i < r.value) ==> !isSpeech(fs[i])
    decreases |fs| - from
  {
    if from >= |fs| then None
    else if isSpeech(fs[from]) then Some(from)
    else FirstSpeech(isSpeech, fs, from + 1)
  }

  /** Frame `j` ends the recording: it is silent and the silence it closes
      has lasted at least the limit. */
  predicate Stops(c: VadConfig, isSpeech: SpeechTest, fs: seq<seq<byte>>, j: nat)
    requires j < |fs|
  {
    !isSpeech(fs[j]) && SilenceMs(c, isSpeech, fs, j) >= c.maxSilenceMs
  }

  /** The first frame at or after `from` that ends the recording, or the frame count. */
  function FirstStop(c: VadConfig, isSpeech: SpeechTest, fs: seq<seq<byte>>, from: nat): (r: nat)
    requires from <= |fs|
    ensures from <= r <= |fs|
    ensures r < |fs| ==> Stops(c, isSpeech, fs, r)
    ensures forall j :: from <= j < r ==> !Stops(c, isSpeech, fs, j)
    decreases |fs| - from
  {
    if from == |fs| then from
    else if Stops(c, isSpeech, fs, from) then from
    else FirstStop(c, isSpeech, fs, from + 1)
  }

  /** The recording the detector should return, over the frames: from the
      first speech frame up to, not including, the frame that ends the
      silence, or to the last full frame; nothing when no frame is speech. */
  function Recording(c: VadConfig, isSpeech: SpeechTest, fs: seq<seq<byte>>): seq<byte>
  {
    match FirstSpeech(isSpeech, fs, 0)
    case None => []
    case Some(s) => Join(fs[s..FirstStop(c, isSpeech, fs, s + 1)])
  }

  /** The recording of a whole audio buffer. */
  function Expected(c: VadConfig, isSpeech: SpeechTest, audio: seq<byte>): seq<byte>
    requires FrameBytes(c) > 0
  {
    Recording(c, isSpeech, Frames(audio, FrameBytes(c)))
  }

  /** The frames still to read are the tail of all the frames. */
  lemma ReadFrame(fs: seq<seq<byte>>, i: nat, rest: seq<byte>, fb: nat)
    requires fb > 0 && i <= |fs| && fs[i..] == Frames(rest, fb) && |rest| >= fb
    ensures i < |fs| && fs[i] == rest[..fb] && fs[i + 1..] == Frames(rest[fb..], fb)
  {
    assert fs[i..][0] == fs[i];
    assert fs[i + 1..] == fs[i..][1..];
  }

  /** Joining one more frame onto a run of frames. */
  lemma JoinExtend(fs: seq<seq<byte>>, a: nat, b: nat)
    requires a <= b < |fs|
    ensures Join(fs[a..b]) + fs[b] == Join(fs[a..b + 1])
  {
    assert fs[a..b + 1] == fs[a..b] + [fs[b]];
    JoinAppend(fs[a..b], [fs[b]]);
    assert Join([fs[b]]) == fs[b] + Join([]);
  }

  /** What the detector's loop knows after reading `i` frames: before the
      first speech frame nothing is recorded; from it on, the record holds the
      frames since, the silence counter the trailing silence, and no frame
      read so far has ended the recording. */
  predicate Scanning(c: VadConfig, isSpeech: SpeechTest, fs: seq<seq<byte>>, i: nat,
                     speaking: bool, record: seq<byte>, silence: int, start: nat)
  {
    && i <= |fs|
    && (!speaking ==> record == [] && FirstSpeech(isSpeech, fs, 0) == FirstSpeech(isSpeech, fs, i))
    && (speaking ==>
          && FirstSpeech(isSpeech, fs, 0) == Some(start)
          && start < i
          && record == Join(fs[start..i])
          && silence == SilenceMs(c, isSpeech, fs, i - 1)
          && FirstStop(c, isSpeech, fs, start + 1) == FirstStop(c, isSpeech, fs, i))
  }

  /** One frame read: a speech frame starts or continues the recording and
      clears the silence; a silent frame while recording adds to the silence
      and, once the limit is reached, the record so far is the whole recording. */
  lemma ScanAdvance(c: VadConfig, isSpeech: SpeechTest, fs: seq<seq<byte>>, i: nat,
                    speaking: bool, record: seq<byte>, silence: int, start: nat)
    requires i < |fs| && Scanning(c, isSpeech, fs, i, speaking, record, silence, start)
    ensures isSpeech(fs[i]) && !speaking ==>
              Scanning(c, isSpeech, fs, i + 1, true, [] + fs[i], 0, i)
    ensures isSpeech(fs[i]) && speaking ==>
              Scanning(c, isSpeech, fs, i + 1, true, record + fs[i], 0, start)
    ensures !isSpeech(fs[i]) && speaking && silence + c.frameDurationMs >= c.maxSilenceMs ==>
              record == Recording(c, isSpeech, fs)
    ensures !isSpeech(fs[i]) && speaking && silence + c.frameDurationMs < c.maxSilenceMs ==>
              Scanning(c, isSpeech, fs, i + 1, true, record + fs[i], silence + c.frameDurationMs, start)
    ensures !isSpeech(fs[i]) && !speaking ==>
              Scanning(c, isSpeech, fs, i + 1, false, record, silence, start)
  {
    if isSpeech(fs[i]) {
      assert !Stops(c, isSpeech, fs, i);
      if speaking {
        JoinExtend(fs, start, i);
      } else {
        JoinExtend(fs, i, i);
        assert fs[i..i] == [];
      }
    } else if speaking {
      assert SilenceMs(c, isSpeech, fs, i) == silence + c.frameDurationMs;
      if silence + c.frameDurationMs < c.maxSilenceMs {
        JoinExtend(fs, start, i);
      }
    }
  }

  /** Every frame read without the silence limit being reached: the record is the whole recording. */
  lemma ScanEnd(c: VadConfig, isSpeech: SpeechTest, fs: seq<seq<byte>>,
                speaking: bool, record: seq<byte>, silence: int, start: nat)
    requires Scanning(c, isSpeech, fs, |fs|, speaking, record, silence, start)
    ensures record == Recording(c, isSpeech, fs)
  {
    if speaking {
      assert fs[start..FirstStop(c, isSpeech, fs, start + 1)] == fs[start..|fs|];
    }
  }

  /** detect_voice_from_file on the file's bytes; a missing file raises. The
      loop reads `fb` bytes at a time from the unread rest of the file and
      stops at the first short read. */
  method DetectVoiceFromFile(c: VadConfig, isSpeech: SpeechTest, file: Option<seq<byte>>, path: string)
    returns (r: Result<seq<byte>>)
    requires FrameBytes(c) > 0
    ensures file.None? <==> r.Failure?
    ensures file.Some? ==> r.value == Expected(c, isSpeech, file.value)
  {
    if file.None? {
      return Failure("音频文件不存在: " + path);
    }
    var audio := file.value;
    var fb: nat := FrameBytes(c);
    ghost var fs := Frames(audio, fb);
    var rest := audio;
    var record: seq<byte> := [];
    var speaking := false;
    var silence := 0;
    var start: nat := 0;
    var i: nat := 0;
    while |rest| >= fb
      invariant i <= |fs| && fs[i..] == Frames(rest, fb)
      invariant Scanning(c, isSpeech, fs, i, speaking, record, silence, start)
      decreases |rest|
    {
      ReadFrame(fs, i, rest, fb);
      ScanAdvance(c, isSpeech, fs, i, speaking, record, silence, start);
      var frame := rest[..fb];
      rest := rest[fb..];
      if isSpeech(frame) {
        if !speaking {
          speaking := true;
          record := [];
          start := i;
        }
        silence := 0;
      } else if speaking {
        silence := silence + c.frameDurationMs;
        if silence >= c.maxSilenceMs {
          return Success(record);
        }
      }
      if speaking {
        record := record + frame;
      }
      i := i + 1;
    }
    assert i == |fs| by {
      assert Frames(rest, fb) == [];
    }
    ScanEnd(c, isSpeech, fs, speaking, record, silence, start);
    return Success(record);
  }

  /** The recording is whole frames: its length is a multiple of the frame size. */
  lemma ExpectedWholeFrames(c: VadConfig, isSpeech: SpeechTest, audio: seq<byte>)
    requires FrameBytes(c) > 0
    ensures |Expected(c, isSpeech, audio)| % FrameBytes(c) == 0
  {
    var fb := FrameBytes(c);
    var fs := Frames(audio, fb);
    var first := FirstSpeech(isSpeech, fs, 0);
    if first.Some? {
      var run := fs[first.value..FirstStop(c, isSpeech, fs, first.value + 1)];
      assert Expected(c, isSpeech, audio) == Join(run);
      assert forall k :: 0 <= k < |run| ==> |run[k]| == fb;
      JoinLength(run, fb);
      MultipleMod(|run|, fb);
    } else {
      MultipleMod(0, fb);
    }
  }

  /** Something is recorded exactly when some full frame of the audio is
      speech, and then the recording begins with the first such frame. */
  lemma ExpectedNonEmpty(c: VadConfig, isSpeech: SpeechTest, audio: seq<byte>)
    requires FrameBytes(c) > 0
    ensures var fs := Frames(audio, FrameBytes(c));
            Expected(c, isSpeech, audio) != [] <==> exists i :: 0 <= i < |fs| && isSpeech(fs[i])
    ensures var fs := Frames(audio, FrameBytes(c));
            Expected(c, isSpeech, audio) != [] ==> fs[FirstSpeech(isSpeech, fs, 0).value] <= Expected(c, isSpeech, audio)
  {
    var fb := FrameBytes(c);
    var fs := Frames(audio, fb);
    match FirstSpeech(isSpeech, fs, 0)
    case None =>
    case Some(s) =>
      var stop := FirstStop(c, isSpeech, fs, s + 1);
      assert fs[s..stop] == [fs[s]] + fs[s + 1..stop];
      assert |fs[s]| == fb;
  }

  /** A trailing partial frame is never examined: appending fewer bytes than a
      frame to audio made of whole frames leaves the frames, and so the
      recording, unchanged. */
  lemma PartialFrameIgnored(c: VadConfig, isSpeech: SpeechTest, audio: seq<byte>, extra: seq<byte>)
    requires FrameBytes(c) > 0 && |audio| % FrameBytes(c) == 0 && |extra| < FrameBytes(c)
    ensures Expected(c, isSpeech, audio + extra) == Expected(c, isSpeech, audio)
  {
    FramesIgnoreTail(audio, extra, FrameBytes(c));
  }

  lemma {:induction false} FramesIgnoreTail(audio: seq<byte>, extra: seq<byte>, fb: nat)
    requires fb > 0 && |audio| % fb == 0 && |extra| < fb
    ensures Frames(audio + extra, fb) == Frames(audio, fb)
    decreases |audio|
  {
    if |audio| == 0 {
      assert audio + extra == extra;
    } else {
      if |audio| < fb {
        DivUnique(|audio|, fb, 0, |audio|);
      }
      DivStep(|audio|, fb);
      assert (audio + extra)[..fb] == audio[..fb];
      assert (audio + extra)[fb..] == audio[fb..] + extra;
      FramesIgnoreTail(audio[fb..], extra, fb);
    }
  }
}
