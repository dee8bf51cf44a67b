/**
 * The visualizer's process state and the two operations that change it:
 * the audio device's callback (`process_audio`, with the frame fill and the
 * bar-level update it runs) and the loading of a new stream
 * (`load_audio_file`). The file-scope globals of the program become the
 * fields of one `Visualizer` object.
 *
 * The platform is outside the model: what `SDL_LoadWAV` decodes is a
 * `LoadOutcome`, the device id `SDL_OpenAudioDevice` returns is a
 * parameter, the spectrum `fftw_execute` leaves in the output array is a
 * parameter, and so are the window function, `log`, the smoothing factor
 * and the bin boundaries that the source computes with floating point.
 */
module AudioPipeline {
  import opened VizConfig
  import opened Samples
  import opened BarLevels

  /** The fields of `SDL_AudioSpec` the visualizer reads or sets. */
  datatype AudioSpec = AudioSpec(freq: nat, format: AudioFormat, channels: nat, samples: nat)

  /** A zero-initialised `SDL_AudioSpec`; format 0 is unsigned and little-endian. */
  const InitialSpec: AudioSpec := AudioSpec(0, AudioFormat(false, true), 0, 0)

  /** What `SDL_LoadWAV` produced: nothing, or a spec and the decoded bytes. */
  datatype LoadOutcome = LoadFailed | Decoded(wavSpec: AudioSpec, data: seq<bv8>)

  /** Only mono and stereo streams are played. */
  predicate AcceptedChannels(channels: nat)
  {
    channels == 1 || channels == 2
  }

  /**
   * Byte offset, from the cursor, of sample `i` of channel `j` in the frame
   * fill: the read pointer advances two bytes per sample and is not reset
   * between channels, and channel `j` reads `NumSamples * j` bytes past it.
   */
  function ReadOffset(j: nat, i: nat): nat
  {
    2 * (NumSamples * j + i) + NumSamples * j
  }

  /** The number of bytes from the cursor one frame fill reads. */
  function FrameBytes(channels: nat): nat
  {
    if channels == 0 then 0 else 3 * NumSamples * (channels - 1) + 2 * NumSamples
  }

  /**
   * The reads are not interleaved: channel `j` starts `1536 * j` bytes
   * after the cursor. Every read of a frame lies within `FrameBytes`, which
   * is 1024 bytes for mono and 2560 for stereo, and the last read touches
   * its last byte.
   */
  lemma FrameReadsInBounds(channels: nat, j: nat, i: nat)
    requires j < channels && i < NumSamples
    ensures ReadOffset(j, i) == 1536 * j + 2 * i
    ensures ReadOffset(j, i) + 1 < FrameBytes(channels)
    ensures ReadOffset(channels - 1, NumSamples - 1) + 2 == FrameBytes(channels)
  {
  }

  /**
   * What the callback as written meets once fewer than a frame's bytes
   * remain at the cursor: the frame it fills (`FrameBytes(channels)` bytes
   * from `audioPos`) runs past the end of the stream, so the precondition
   * of `Visualizer.ProcessAudio` fails and its last read is outside the
   * buffer. Once the stream has played out (`audioLen == 0`), every read
   * of the frame is outside it.
   */
  lemma FrameOverReadAsWritten(v: Visualizer)
    requires v.Valid() && AcceptedChannels(v.spec.channels)
    requires v.audioLen < FrameBytes(v.spec.channels)
    ensures v.audioPos + FrameBytes(v.spec.channels) > |v.audioStream|
    ensures v.audioPos + ReadOffset(v.spec.channels - 1, NumSamples - 1) + 1 >= |v.audioStream|
    ensures v.audioLen == 0 ==> forall j, i :: 0 <= j < v.spec.channels && 0 <= i < NumSamples ==>
      v.audioPos + ReadOffset(j, i) >= |v.audioStream|
  {
    FrameReadsInBounds(v.spec.channels, v.spec.channels - 1, NumSamples - 1);
  }

  lemma FrameSizes()
    ensures FrameBytes(1) == 1024 && FrameBytes(2) == 2560
  {
  }

  /** The sample at `off`, scaled by the window coefficient of sample index `i`. */
  function WindowedSample(stream: seq<bv8>, off: nat, format: AudioFormat, w: int -> real,
                          i: nat): real
    requires off + 1 < |stream|
  {
    GetSample(stream, off, format) * w(i)
  }

  /** The value the frame fill stores for sample `i` of channel `j`. */
  function FrameValue(stream: seq<bv8>, pos: nat, format: AudioFormat, w: int -> real,
                      j: nat, i: nat): real
    requires pos + ReadOffset(j, i) + 1 < |stream|
  {
    WindowedSample(stream, pos + ReadOffset(j, i), format, w, i)
  }

  /** The shape of `fft_audio_data_out`: two rows of `NumSamples` coefficients. */
  predicate SpectrumShape(spectrum: seq<seq<Complex>>)
  {
    |spectrum| == MaxChannels
    && forall j :: 0 <= j < |spectrum| ==> |spectrum[j]| == NumSamples
  }

  /**
   * `a` holds the windowed frame read from `stream` at `pos` in its first
   * `channels` rows; the remaining rows are as they were.
   */
  twostate predicate FrameFilled(a: array2<real>, stream: seq<bv8>, pos: nat, format: AudioFormat,
                                 channels: nat, w: int -> real)
    requires a.Length0 == MaxChannels && a.Length1 == NumSamples
    requires channels <= MaxChannels && pos + FrameBytes(channels) <= |stream|
    reads a
  {
    forall j, i :: 0 <= j < MaxChannels && 0 <= i < NumSamples ==>
      a[j, i] == if j < channels then FrameValue(stream, pos, format, w, j, i) else old(a[j, i])
  }

  /**
   * Every bar of the first `channels` rows of `a` has taken one smoothing
   * step on its bins of `spectrum`; the remaining rows are as they were.
   */
  twostate predicate LevelsUpdated(a: array2<real>, spectrum: seq<seq<Complex>>, bins: seq<int>,
                                   s: real, ln: real -> real, channels: nat)
    requires a.Length0 == MaxChannels && a.Length1 == NumBins
    requires SpectrumShape(spectrum) && ValidBoundaries(bins)
    reads a
  {
    forall j, i :: 0 <= j < MaxChannels && 0 <= i < NumBins ==>
      a[j, i] == if j < channels then BarStep(old(a[j, i]), spectrum[j], bins, i, s, ln)
                 else old(a[j, i])
  }

  ghost predicate LevelsNonnegative(a: array2<real>)
    reads a
  {
    forall j, i :: 0 <= j < a.Length0 && 0 <= i < a.Length1 ==> a[j, i] >= 0.0
  }

  ghost predicate AllZero(a: array2<real>)
    reads a
  {
    forall j, i :: 0 <= j < a.Length0 && 0 <= i < a.Length1 ==> a[j, i] == 0.0
  }

  class Visualizer {
    /** `gAudioSpec`: the spec of the stream being played. */
    var spec: AudioSpec
    /** `gAudioDeviceID`; 0 when no device has been opened. */
    var deviceId: nat
    /** `fft_audio_data_in`: the windowed frame, one row per channel. */
    const fftIn: array2<real>
    /** `bar_levels`: the smoothed level of every bar, one row per channel. */
    const barLevels: array2<real>
    /** The bytes `audio_stream` points to; `hasStream` is `audio_stream != NULL`. */
    var audioStream: seq<bv8>
    var hasStream: bool
    /** The cursor: `audio_pos - audio_stream`, and `audio_len`. */
    var audioPos: nat
    var audioLen: nat
    /** The buffer `audio_stream` points to has been returned with `SDL_FreeWAV`. */
    ghost var streamReleased: bool
    /** Some buffer has been handed to `SDL_FreeWAV` a second time. */
    ghost var releasedTwice: bool
    /**
     * Some buffer has been handed to `SDL_FreeWAV` while an audio device was
     * still open on it (`gAudioDeviceID != 0`), so the callback could still
     * read it.
     */
    ghost var releasedWhilePlaying: bool

    ghost predicate Valid()
      reads this
    {
      fftIn.Length0 == MaxChannels && fftIn.Length1 == NumSamples
      && barLevels.Length0 == MaxChannels && barLevels.Length1 == NumBins
      && fftIn != barLevels
      && spec.channels <= MaxChannels
      // the cursor never leaves the stream: consumed plus remaining is its length
      && audioPos + audioLen == |audioStream|
      && (!hasStream ==> audioStream == [] && !streamReleased)
    }

    /** The state at start-up: zero-initialised globals, nothing loaded. */
    constructor ()
      ensures Valid() && fresh(fftIn) && fresh(barLevels)
      ensures spec == InitialSpec && deviceId == 0
      ensures !hasStream && audioStream == [] && audioPos == 0 && audioLen == 0
      ensures !streamReleased && !releasedTwice && !releasedWhilePlaying
      ensures AllZero(fftIn) && AllZero(barLevels)
    {
      spec := InitialSpec;
      deviceId := 0;
      fftIn := new real[MaxChannels, NumSamples]((_, _) => 0.0);
      barLevels := new real[MaxChannels, NumBins]((_, _) => 0.0);
      audioStream := [];
      hasStream := false;
      audioPos := 0;
      audioLen := 0;
      streamReleased := false;
      releasedTwice := false;
      releasedWhilePlaying := false;
    }

    /**
     * `fill_fft_input`: the windowed frame at byte offset `pos` of the
     * stream, for every channel of the spec. The frame must be addressable.
     */
    method FillFftInput(pos: nat, w: int -> real)
      requires Valid()
      requires pos + FrameBytes(spec.channels) <= |audioStream|
      modifies fftIn
      ensures FrameFilled(fftIn, audioStream, pos, spec.format, spec.channels, w)
    {
      var p := pos;
      for j := 0 to spec.channels
        invariant p == pos + 2 * NumSamples * j
        invariant forall jj, i :: 0 <= jj < j && 0 <= i < NumSamples ==>
          fftIn[jj, i] == FrameValue(audioStream, pos, spec.format, w, jj, i)
        invariant forall jj, i :: j <= jj < MaxChannels && 0 <= i < NumSamples ==>
          fftIn[jj, i] == old(fftIn[jj, i])
      {
        p := FillChannel(j, p, w);
        // channel j read NumSamples * j bytes past the pointer it started from
        assert forall i :: 0 <= i < NumSamples ==>
          p - 2 * NumSamples + NumSamples * j + 2 * i == pos + ReadOffset(j, i);
      }
    }

    /**
     * The inner loop of `fill_fft_input` for channel `j`: row `j` receives
     * the windowed samples read `NumSamples * j` bytes past the advancing
     * pointer `p`, which ends `2 * NumSamples` bytes further on.
     */
    method FillChannel(j: nat, p: nat, w: int -> real) returns (next: nat)
      requires fftIn.Length0 == MaxChannels && fftIn.Length1 == NumSamples && j < MaxChannels
      requires p + NumSamples * j + 2 * NumSamples <= |audioStream|
      modifies fftIn
      ensures next == p + 2 * NumSamples
      ensures forall i :: 0 <= i < NumSamples ==>
        fftIn[j, i] == WindowedSample(audioStream, p + NumSamples * j + 2 * i, spec.format, w, i)
      ensures forall jj, i :: 0 <= jj < MaxChannels && jj != j && 0 <= i < NumSamples ==>
        fftIn[jj, i] == old(fftIn[jj, i])
    {
      var stream, format := audioStream, spec.format;
      next := p;
      for i := 0 to NumSamples
        invariant next == p + 2 * i
        invariant forall ii :: 0 <= ii < i ==>
          fftIn[j, ii] == WindowedSample(stream, p + NumSamples * j + 2 * ii, format, w, ii)
        invariant forall jj, ii :: 0 <= jj < MaxChannels && jj != j && 0 <= ii < NumSamples ==>
          fftIn[jj, ii] == old(fftIn[jj, ii])
      {
        ghost var off := p + NumSamples * j + 2 * i;
        assert next + NumSamples * j == off;
        // w(i) is the Hann coefficient of sample i
        var x := GetSample(stream, next + NumSamples * j, format) * w(i);
        assert x == WindowedSample(stream, off, format, w, i);
        fftIn[j, i] := x;
        next := next + 2;
      }
    }

    /**
     * `calculate_bar_levels`: one smoothing step for every bar of every
     * channel of the spec from the peak of its bins. Rows past the channel
     * count keep their levels, and non-negative levels stay non-negative.
     */
    method CalculateBarLevels(spectrum: seq<seq<Complex>>, bins: seq<int>, smoothing: real,
                              ln: real -> real)
      requires Valid()
      requires SpectrumShape(spectrum) && ValidBoundaries(bins)
      modifies barLevels
      ensures LevelsUpdated(barLevels, spectrum, bins, smoothing, ln, spec.channels)
      ensures 0.0 <= smoothing <= 1.0 && old(LevelsNonnegative(barLevels)) ==>
        LevelsNonnegative(barLevels)
    {
      for j := 0 to spec.channels
        invariant forall jj, i :: 0 <= jj < MaxChannels && 0 <= i < NumBins ==>
          barLevels[jj, i] == if jj < j then BarStep(old(barLevels[jj, i]), spectrum[jj], bins, i, smoothing, ln)
                              else old(barLevels[jj, i])
      {
        for i := 0 to NumBins
          invariant forall jj, ii :: 0 <= jj < MaxChannels && 0 <= ii < NumBins ==>
            barLevels[jj, ii] == if jj < j || (jj == j && ii < i)
                                 then BarStep(old(barLevels[jj, ii]), spectrum[jj], bins, ii, smoothing, ln)
                                 else old(barLevels[jj, ii])
        {
          BoundaryInRange(bins, i);
          BoundaryInRange(bins, i + 1);
          var startFreq := bins[i];
          var endFreq := bins[i + 1];
          var modulus := BinPeak(spectrum[j], startFreq, endFreq);
          modulus := ln(modulus);
          if modulus < 0.0 {
            modulus := 0.0;
          }
          barLevels[j, i] := barLevels[j, i] * smoothing + modulus * CompressionGain * (1.0 - smoothing);
        }
      }
    }

    /**
     * `process_audio`: the device asks for `len` bytes in `out`. The frame
     * at the cursor is windowed and its spectrum (`spectrum`) turned into
     * bar levels; then `n = min(audioLen, len)` bytes are copied from the
     * cursor and the cursor advances by `n`.
     *
     * The frame fill reads a whole frame whatever `audioLen` is, so the
     * caller must keep a full frame addressable past the cursor.
     */
    method ProcessAudio(out: array<bv8>, len: nat, w: int -> real, spectrum: seq<seq<Complex>>,
                        bins: seq<int>, smoothing: real, ln: real -> real)
      requires Valid() && !streamReleased
      requires len <= out.Length
      requires audioPos + FrameBytes(spec.channels) <= |audioStream|
      requires SpectrumShape(spectrum) && ValidBoundaries(bins)
      modifies this, fftIn, barLevels, out
      ensures Valid() && !streamReleased && releasedTwice == old(releasedTwice)
      ensures releasedWhilePlaying == old(releasedWhilePlaying)
      ensures spec == old(spec) && deviceId == old(deviceId)
      ensures audioStream == old(audioStream) && hasStream == old(hasStream)
      ensures var n := VizMin(old(audioLen), len);
        && audioLen == old(audioLen) - n
        && audioPos == old(audioPos) + n
        && out[..n] == audioStream[old(audioPos)..old(audioPos) + n]
        && out[n..] == old(out[n..])
      ensures audioPos + audioLen == old(audioPos + audioLen)
      ensures FrameFilled(fftIn, audioStream, old(audioPos), spec.format, spec.channels, w)
      ensures LevelsUpdated(barLevels, spectrum, bins, smoothing, ln, spec.channels)
      ensures 0.0 <= smoothing <= 1.0 && old(LevelsNonnegative(barLevels)) ==>
        LevelsNonnegative(barLevels)
    {
      FillFftInput(audioPos, w);
      CalculateBarLevels(spectrum, bins, smoothing, ln);
      Advance(out, len);
    }

    /**
     * `process_audio` with the analysis skipped once less than a whole
     * frame remains: the fill then never reads past the end of the stream,
     * so no precondition on the cursor is needed. Bytes are copied and the
     * cursor advances exactly as before.
     */
    method ProcessAudioGuarded(out: array<bv8>, len: nat, w: int -> real,
                               spectrum: seq<seq<Complex>>, bins: seq<int>, smoothing: real,
                               ln: real -> real)
      requires Valid() && !streamReleased
      requires len <= out.Length
      requires SpectrumShape(spectrum) && ValidBoundaries(bins)
      modifies this, fftIn, barLevels, out
      ensures Valid() && !streamReleased && releasedTwice == old(releasedTwice)
      ensures releasedWhilePlaying == old(releasedWhilePlaying)
      ensures spec == old(spec) && deviceId == old(deviceId)
      ensures audioStream == old(audioStream) && hasStream == old(hasStream)
      ensures var n := VizMin(old(audioLen), len);
        && audioLen == old(audioLen) - n
        && audioPos == old(audioPos) + n
        && out[..n] == audioStream[old(audioPos)..old(audioPos) + n]
        && out[n..] == old(out[n..])
      ensures old(audioLen) >= FrameBytes(spec.channels) ==>
        && FrameFilled(fftIn, audioStream, old(audioPos), spec.format, spec.channels, w)
        && LevelsUpdated(barLevels, spectrum, bins, smoothing, ln, spec.channels)
      ensures old(audioLen) < FrameBytes(spec.channels) ==>
        unchanged(fftIn) && unchanged(barLevels)
    {
      if audioLen >= FrameBytes(spec.channels) {
        FillFftInput(audioPos, w);
        CalculateBarLevels(spectrum, bins, smoothing, ln);
      }
      Advance(out, len);
    }

    /**
     * The tail of `process_audio`: `n = min(audioLen, len)` bytes at the
     * cursor are copied to `out`, and the cursor moves past them.
     */
    method Advance(out: array<bv8>, len: nat)
      requires Valid()
      requires len <= out.Length
      modifies this, out
      ensures Valid()
      ensures streamReleased == old(streamReleased) && releasedTwice == old(releasedTwice)
      ensures releasedWhilePlaying == old(releasedWhilePlaying)
      ensures spec == old(spec) && deviceId == old(deviceId)
      ensures audioStream == old(audioStream) && hasStream == old(hasStream)
      ensures var n := VizMin(old(audioLen), len);
        && audioLen == old(audioLen) - n
        && audioPos == old(audioPos) + n
        && out[..n] == audioStream[old(audioPos)..old(audioPos) + n]
        && out[n..] == old(out[n..])
    {
      var n := VizMin(audioLen, len);
      forall k | 0 <= k < n {
        out[k] := audioStream[audioPos + k];
      }
      audioLen := audioLen - n;
      audioPos := audioPos + n;
    }

    /**
     * `load_audio_file`, as written. A failed load changes nothing. Before
     * the channel count is checked the current stream, if there is one, is
     * released, while the device is still open if one is. So a rejected load
     * leaves `audio_stream` and the cursor pointing into a released buffer
     * with the device, if any, still playing it, and an accepted load frees
     * the old buffer before it closes the device. An accepted load plays the new stream
     * from its start with every bar level at 0.
     */
    method LoadAudioFile(outcome: LoadOutcome, newDevice: nat)
      requires Valid()
      modifies this, barLevels
      ensures Valid()
      ensures outcome.LoadFailed? ==> unchanged(this) && unchanged(barLevels)
      ensures outcome.Decoded? ==>
        && releasedTwice == (old(releasedTwice) || (old(hasStream) && old(streamReleased)))
        && releasedWhilePlaying == (old(releasedWhilePlaying) || (old(hasStream) && old(deviceId) != 0))
      ensures outcome.Decoded? && !AcceptedChannels(outcome.wavSpec.channels) ==>
        && spec == old(spec) && deviceId == old(deviceId)
        && audioStream == old(audioStream) && hasStream == old(hasStream)
        && audioPos == old(audioPos) && audioLen == old(audioLen)
        && unchanged(barLevels)
        && streamReleased == (old(streamReleased) || old(hasStream))
      ensures outcome.Decoded? && AcceptedChannels(outcome.wavSpec.channels) ==>
        && spec == outcome.wavSpec.(samples := NumSamples)
        && deviceId == newDevice
        && audioStream == outcome.data && hasStream
        && audioPos == 0 && audioLen == |outcome.data|
        && AllZero(barLevels)
        && !streamReleased
    {
      if outcome.LoadFailed? {
        return;
      }
      var wavSpec := outcome.wavSpec;
      if hasStream {
        // SDL_FreeWAV(audio_stream), while the device is still open if one is; the pointer is kept
        Release();
      }
      if !AcceptedChannels(wavSpec.channels) {
        // "Illegal number of channels." goes to stderr and the new buffer is released
        return;
      }
      // only now is the open device, if any, closed
      deviceId := 0;
      wavSpec := wavSpec.(samples := NumSamples);
      deviceId := newDevice;
      spec := wavSpec;
      AttachStream(outcome.data);
    }

    /**
     * `load_audio_file` with the channel check moved before the release of
     * the current stream, and the device closed before the stream it plays
     * is released: a rejected load then changes nothing at all, and no
     * buffer is ever released while a device is open on it.
     */
    method LoadAudioFileChecked(outcome: LoadOutcome, newDevice: nat)
      requires Valid()
      modifies this, barLevels
      ensures Valid()
      ensures (outcome.LoadFailed? || !AcceptedChannels(outcome.wavSpec.channels)) ==>
        unchanged(this) && unchanged(barLevels)
      ensures outcome.Decoded? && AcceptedChannels(outcome.wavSpec.channels) ==>
        && spec == outcome.wavSpec.(samples := NumSamples)
        && deviceId == newDevice
        && audioStream == outcome.data && hasStream
        && audioPos == 0 && audioLen == |outcome.data|
        && AllZero(barLevels)
        && !streamReleased
        && releasedTwice == (old(releasedTwice) || (old(hasStream) && old(streamReleased)))
        && releasedWhilePlaying == old(releasedWhilePlaying)
    {
      if outcome.LoadFailed? || !AcceptedChannels(outcome.wavSpec.channels) {
        return;
      }
      // close the open device, if any, so that nothing reads the stream any more
      deviceId := 0;
      if hasStream {
        Release();
      }
      spec := outcome.wavSpec.(samples := NumSamples);
      deviceId := newDevice;
      AttachStream(outcome.data);
    }

    /** `SDL_FreeWAV(audio_stream)`: the buffer is returned; the pointer is kept. */
    method Release()
      requires hasStream
      modifies this
      ensures spec == old(spec) && deviceId == old(deviceId)
      ensures audioStream == old(audioStream) && hasStream
      ensures audioPos == old(audioPos) && audioLen == old(audioLen)
      ensures streamReleased
      ensures releasedTwice == (old(releasedTwice) || old(streamReleased))
      ensures releasedWhilePlaying == (old(releasedWhilePlaying) || old(deviceId) != 0)
    {
      releasedTwice := releasedTwice || streamReleased;
      releasedWhilePlaying := releasedWhilePlaying || deviceId != 0;
      streamReleased := true;
    }

    /** The tail of an accepted load: new stream, cursor at its start, levels zeroed. */
    method AttachStream(data: seq<bv8>)
      requires fftIn.Length0 == MaxChannels && fftIn.Length1 == NumSamples
      requires barLevels.Length0 == MaxChannels && barLevels.Length1 == NumBins
      requires fftIn != barLevels && spec.channels <= MaxChannels
      modifies this, barLevels
      ensures Valid()
      ensures spec == old(spec) && deviceId == old(deviceId)
      ensures releasedTwice == old(releasedTwice) && releasedWhilePlaying == old(releasedWhilePlaying)
      ensures audioStream == data && hasStream && audioPos == 0 && audioLen == |data|
      ensures !streamReleased
      ensures AllZero(barLevels)
    {
      audioStream := data;
      hasStream := true;
      audioPos := 0;
      audioLen := |data|;
      streamReleased := false;
      forall j, i | 0 <= j < MaxChannels && 0 <= i < NumBins {
        barLevels[j, i] := 0.0;
      }
    }
  }

  /**
   * A stereo stream is playing, then a three-channel file is dropped. With
   * the load as written, the device keeps playing a stream that has been
   * released: the callback's precondition `!streamReleased` no longer holds.
   */
  method RejectedLoadReleasesPlayingStream(data: seq<bv8>, format: AudioFormat, device: nat)
    returns (v: Visualizer)
    requires device != 0 && |data| > 0
    ensures fresh(v) && fresh(v.fftIn) && fresh(v.barLevels)
    ensures v.Valid() && v.hasStream && v.streamReleased && v.releasedWhilePlaying
    ensures v.deviceId == device && v.audioLen == |data|
  {
    v := new Visualizer();
    v.LoadAudioFile(Decoded(AudioSpec(48000, format, 2, 4096), data), device);
    v.LoadAudioFile(Decoded(AudioSpec(48000, format, 3, 4096), data), device + 1);
  }

  /** The next accepted load after such a rejection releases the same buffer again. */
  method ReloadAfterRejectionReleasesTwice(data: seq<bv8>, format: AudioFormat, device: nat)
    returns (v: Visualizer)
    requires device != 0 && |data| > 0
    ensures fresh(v) && fresh(v.fftIn) && fresh(v.barLevels)
    ensures v.Valid() && v.releasedTwice && !v.streamReleased
  {
    v := RejectedLoadReleasesPlayingStream(data, format, device);
    v.LoadAudioFile(Decoded(AudioSpec(48000, format, 1, 4096), data), device + 2);
  }

  /**
   * Even with no rejection in between, replacing a playing stream with the
   * load as written frees the old buffer while its device is still open.
   */
  method ReloadReleasesWhilePlaying(data: seq<bv8>, format: AudioFormat, device: nat)
    returns (v: Visualizer)
    requires device != 0 && |data| > 0
    ensures fresh(v) && fresh(v.fftIn) && fresh(v.barLevels)
    ensures v.Valid() && v.hasStream && !v.streamReleased && !v.releasedTwice
    ensures v.releasedWhilePlaying
    ensures v.deviceId == device + 1 && v.audioLen == |data|
  {
    v := new Visualizer();
    v.LoadAudioFile(Decoded(AudioSpec(48000, format, 2, 4096), data), device);
    v.LoadAudioFile(Decoded(AudioSpec(44100, format, 1, 4096), data), device + 1);
  }

  /** With the checked load, the three-channel drop leaves the stereo stream playing. */
  method CheckedRejectionKeepsPlayingStream(data: seq<bv8>, format: AudioFormat, device: nat)
    returns (v: Visualizer)
    requires device != 0 && |data| > 0
    ensures fresh(v) && fresh(v.fftIn) && fresh(v.barLevels)
    ensures v.Valid() && v.hasStream && !v.streamReleased
    ensures !v.releasedTwice && !v.releasedWhilePlaying
    ensures v.deviceId == device && v.audioLen == |data|
  {
    v := new Visualizer();
    v.LoadAudioFileChecked(Decoded(AudioSpec(48000, format, 2, 4096), data), device);
    v.LoadAudioFileChecked(Decoded(AudioSpec(48000, format, 3, 4096), data), device + 1);
  }

  /**
   * The checked load after that rejection replaces the stream: nothing is
   * released twice and nothing is released while a device is open on it.
   */
  method CheckedReloadReleasesOnce(data: seq<bv8>, format: AudioFormat, device: nat)
    returns (v: Visualizer)
    requires device != 0 && |data| > 0
    ensures fresh(v) && fresh(v.fftIn) && fresh(v.barLevels)
    ensures v.Valid() && v.hasStream && !v.streamReleased
    ensures !v.releasedTwice && !v.releasedWhilePlaying
    ensures v.deviceId == device + 2 && v.audioLen == |data|
  {
    v := CheckedRejectionKeepsPlayingStream(data, format, device);
    v.LoadAudioFileChecked(Decoded(AudioSpec(48000, format, 1, 4096), data), device + 2);
  }
}
