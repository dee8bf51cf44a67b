# Audio spectrum visualizer: a Dafny model of its audio pipeline

The visualizer plays a WAV file dropped on its window. It draws two groups
of 15 bars, one group per channel, whose heights follow the spectrum of
the audio being played. This project models the integer and ordering logic
of that pipeline and proves properties of it:

- decoding a 16-bit sample (`get_sample`);
- filling the transform's input frame from the play cursor (`fill_fft_input`);
- the per-bar peak detector, the clamped log compression and the
  exponential smoothing of the bar levels (`calculate_bar_levels`);
- the device callback that copies bytes and advances the cursor (`process_audio`);
- the state machine of loading a new file (`load_audio_file`);
- the horizontal layout of the bars (`draw_visualizer`);
- the `viz_min` / `viz_max` macros and the size constants of `visualizer.h`.

The Fourier transform, `cos`, `pow`, `powf`, `round` and `log` are not
modelled. The Hann coefficient `w`, the logarithm `ln`, the smoothing factor
and the bin boundaries are parameters. So is the spectrum the transform
leaves in `fft_audio_data_out`. Arithmetic on them is exact `real`
arithmetic.

Files:

- `config.dfy`: module `VizConfig`, the constants and the two macros.
- `samples.dfy`: module `Samples`, sample decoding as written and as the formats define it.
- `bar_levels.dfy`: module `BarLevels`, peak, clamp, smoothing and the bin-boundary precondition.
- `layout.dfy`: module `Layout`, the bar x-positions.
- `pipeline.dfy`: module `AudioPipeline`. Class `Visualizer` holds the program's globals as fields: `fft_audio_data_in` and `bar_levels` as `array2<real>`, the stream as `seq<bv8>`, the cursor as an offset `audioPos` and a count `audioLen`, and the spec and device id. Its methods change them in place.

The model follows the code, also where the code departs from what the
sample formats and the program's own purpose call for. There are six such
places:

- **Frame layout.** Each channel's frame should hold that channel's
  samples, taken from the stream's interleaved frames. The code reads
  sample `i` of channel `j` at byte `1536*j + 2*i` past the cursor, because
  its read pointer advances 2 bytes per sample, is never reset between
  channels, and is offset by another `512*j`. `ReadOffset` and
  `FrameReadsInBounds` state this.
- **Rejected loads.** A file with an unsupported channel count should leave
  the playing stream as it was. The code releases the playing stream before it checks the channel count (see
  Findings).
- **Signed decoding.** A signed 16-bit sample is a two's complement value,
  which scales into `[-1, 1]` with silence at 0. The code reads the bytes as an unsigned word
  and subtracts 32767, so silence (`00 00`) decodes to `-32767/32768` and
  -1 (`FF FF`) to `1.0` (see Findings). `SignedDecodingAsWritten` states
  this.
- **Byte order.** A sample should be read in the format's byte order. The
  two branches of the endianness test build the same word, so
  big-endian streams are decoded as little-endian (see Findings).
  `GetSampleIgnoresEndianness` states this.
- **Device closed after the free.** An accepted load releases the old
  buffer (line 138) before it closes the device that plays it (line 146),
  so the callback can run on a released buffer in between. The ghost flag
  `releasedWhilePlaying` records this (see Findings).
- **Smoothing rate.** The smoothing factor is `0.0007^(512/48000)` with the
  constant `VIZ_SAMPLE_RATE` (line 87), whatever the rate of the loaded
  file. The model takes the factor as a parameter, so every rate is
  covered, but the code always uses the 48 kHz value.

The callback reads samples with `GetSample`, the decoder as written, because
it models how the program fills the transform's input. The corrected decoder
`GetSampleIntended` is specified and proved on its own in `samples.dfy`.

## Model

| member | source | states |
|---|---|---|
| VizConfig.VizMax | visualizer.h:9 | the result is at least both arguments and equals one of them; when `a <= b` (a tie included) it is `b` |
| VizConfig.VizMin | visualizer.h:10 | the result is at most both arguments and equals one of them; when `b <= a` (a tie included) it is `b` |
| Samples.RawValue | visualizer.c:65-67 | the 16-bit value built by either endianness branch equals `lo + 256*hi` as an integer |
| Samples.RawValueIgnoresEndianness | visualizer.c:65-67 | both branches give the same value, and it is at most 65535 |
| Samples.Normalize | visualizer.c:69-73 | a signed sample lies in `[-32767/32768, 1]`, an unsigned one in `[0, 1]` |
| Samples.NormalizeStrictlyIncreasing | visualizer.c:69-73 | a larger raw value gives a strictly larger sample, so scaling is injective |
| Samples.NormalizeExtremes | visualizer.c:69-73 | raw 0 and 65535 map to the ends of each range; signed raw 32767 maps to 0 |
| Samples.GetSample | visualizer.c:62-74 | the sample is the scaling of `stream[off] + 256*stream[off+1]`, whatever the endianness flag |
| Samples.GetSampleIgnoresEndianness | visualizer.c:62-74 | formats that differ only in endianness decode every byte pair to the same sample |
| Samples.SignedDecodingAsWritten | visualizer.c:69-71 | in a signed format, silence `00 00` decodes to `-32767/32768` and `FF FF` (the value -1) to `1.0` |
| Samples.BigEndianDecodingAsWritten | visualizer.c:65-67 | the big-endian bytes `00 01` (the value 1) decode as the word 256, both signed and unsigned |
| Samples.SampleWord | visualizer.c:65-67 | corrected: the word lies in `[0, 65535]`; its low byte is the first byte for little-endian and the second for big-endian, its high byte the other one |
| Samples.AsInt16 | visualizer.c:69-70 | corrected: the two's complement reading lies in `[-32768, 32767]` and differs from the word by 0 or 65536 |
| Samples.GetSampleIntended | visualizer.c:62-74 | corrected: a signed sample lies in `[-1, 32767/32768]`, an unsigned one in `[0, 1]` |
| Samples.Signed16RoundTrip | visualizer.c:62-74 | corrected: decoding two bytes that store a signed 16-bit value `s` (its two's complement word, in the format's byte order) gives `s/32768` |
| Samples.GetSampleIntendedInjective | visualizer.c:62-74 | corrected: two byte pairs that decode to the same sample are the same bytes, in every format |
| Samples.SignedDecodingIntended | visualizer.c:69-71 | corrected: silence decodes to 0 and `FF FF` to `-1/32768` |
| BarLevels.Power | visualizer.c:103-106 | `re*re + im*im` is non-negative |
| BarLevels.Peak | visualizer.c:100-109 | the peak over bins `[start, end)` is at least 0 and at least the power of every bin in the range |
| BarLevels.PeakAttained | visualizer.c:100-109 | the peak is 0 for an empty range; otherwise it is 0 or the power of some bin in the range |
| BarLevels.PeakIsLeastBound | visualizer.c:100-109 | every non-negative upper bound of the range's powers is at least the peak |
| BarLevels.SilentRangeHasZeroPeak | visualizer.c:100-109 | a range of all-zero coefficients has peak 0 |
| BarLevels.BinPeak | visualizer.c:100-109 | the loop's running maximum ends equal to `Peak` of the range |
| BarLevels.ClampedLog | visualizer.c:110-111 | the clamped log is non-negative, at least `ln(m)`, and equals either 0 or `ln(m)` |
| BarLevels.Smooth | visualizer.c:113 | with `0 <= s <= 1` the new level lies between the old level and `0.05 * input` |
| BarLevels.SmoothKeepsNonnegative | visualizer.c:113 | a non-negative level with a non-negative input stays non-negative |
| BarLevels.SmoothSilenceDecays | visualizer.c:113 | with zero input the new level is `s * old`, which lies in `[0, old]` |
| BarLevels.SmoothFixedPoint | visualizer.c:113 | a level equal to `0.05 * input` is left unchanged |
| BarLevels.SilentFramesClosedForm | visualizer.c:113 | after `n` silent frames the level is `s^n * level` |
| BarLevels.SilentFramesDecay | visualizer.c:113 | over successive silent frames the level never goes negative and never increases |
| BarLevels.BoundaryInRange | visualizer.c:97-98 | under the boundary precondition, each boundary lies in `[0, 256]`, so every bin read is inside the spectrum |
| BarLevels.BarStep | visualizer.c:97-113 | one bar update keeps a non-negative level non-negative when `0 <= s <= 1` |
| BarLevels.SilentBarDecays | visualizer.c:97-113 | when all bins are silent and `ln(0) <= 0`, a bar's level becomes exactly `s * level` |
| Layout.LeftBarX | visualizer.c:33-38 | each left-group bar lies inside the left half of the 800-wide window |
| Layout.RightBarX | visualizer.c:40-43 | each right-group bar lies inside the right half of the window |
| Layout.BarPositions | visualizer.c:33-43 | left bar `i` is at `10 + 25*i` and right bar `i` at `770 - 25*i` |
| Layout.GroupsMirror | visualizer.c:33-43 | right bar `i` is the mirror image of left bar `i` about the window's centre |
| Layout.AdjacentBarsSpaced | visualizer.c:33-43 | neighbouring bars of a group are 5 apart |
| Layout.GroupsDisjoint | visualizer.c:33-43 | the left group ends at 380 and the right group starts at 420, so no two bars of different groups overlap |
| AudioPipeline.FrameReadsInBounds | visualizer.c:76-84 | channel `j`, sample `i` is read at `1536*j + 2*i`; every read lies within `FrameBytes(channels)`, and the last read reaches that bound exactly |
| AudioPipeline.FrameOverReadAsWritten | visualizer.c:121 | in any valid state with fewer than `FrameBytes(channels)` bytes left at the cursor, the frame the fill reads runs past `|audioStream|` (so `ProcessAudio`'s precondition fails) and its last read lies outside the stream; with `audioLen == 0`, every read of the frame does |
| AudioPipeline.FrameSizes | visualizer.c:76-84 | a frame reads 1024 bytes for mono and 2560 for stereo |
| AudioPipeline.Visualizer.constructor | visualizer.c:9-20 | the start state: zero spec and device, no stream, empty cursor, zero arrays |
| AudioPipeline.Visualizer.FillFftInput | visualizer.c:76-84 | rows `j < channels` hold `sample(pos + 1536*j + 2*i) * w(i)`; the other rows are unchanged |
| AudioPipeline.Visualizer.FillChannel | visualizer.c:78-82 | row `j` holds the windowed samples `512*j` bytes past the advancing pointer, which moves `1024` bytes; the other rows are unchanged |
| AudioPipeline.Visualizer.CalculateBarLevels | visualizer.c:86-116 | each bar of rows `j < channels` takes one `BarStep` from its old level; other rows (row 1 for mono) are unchanged; non-negative levels stay non-negative |
| AudioPipeline.Visualizer.ProcessAudio | visualizer.c:118-130 | with `n = min(audioLen, len)`, exactly the `n` bytes at the cursor are copied; `audioLen` drops by `n` without underflow; `audioPos` advances by `n`; their sum is preserved; the frame and levels are updated as above; nothing is released |
| AudioPipeline.Visualizer.Advance | visualizer.c:126-129 | the `min(audioLen, len)` bytes (the length clamped at line 119) at the cursor are copied, the rest of `out` is untouched, and the cursor moves past them; nothing else changes |
| AudioPipeline.Visualizer.ProcessAudioGuarded | visualizer.c:118-130 | corrected: with no precondition on the cursor, the copy and cursor update are those of `ProcessAudio`; a whole remaining frame is analysed as before, and with less than a frame left the frame and the levels are untouched |
| AudioPipeline.Visualizer.LoadAudioFile | visualizer.c:132-158 | a failed load changes nothing. Any decoded file releases the current stream, if there is one, and records it when a device is still open on it. A rejected channel count keeps spec, device, cursor and levels but marks the playing stream released. An accepted load plays the new stream from its start, with `audioLen` its length, `samples = 512` and all levels 0 |
| AudioPipeline.Visualizer.LoadAudioFileChecked | visualizer.c:132-158 | the corrected load: a failed or rejected load changes nothing at all; an accepted one closes the device before it releases the old stream, so no buffer is released while a device is open on it, and otherwise does what `LoadAudioFile` does |
| AudioPipeline.Visualizer.Release | visualizer.c:138 | the stream is marked released, the pointer and everything else are kept, and the release is recorded as a double release or a release while playing when it is one |
| AudioPipeline.Visualizer.AttachStream | visualizer.c:153-156 | the new stream is attached with the cursor at its start and every bar level zeroed |
| AudioPipeline.RejectedLoadReleasesPlayingStream | visualizer.c:137-144 | after a stereo load and then a rejected 3-channel load, the device is still open on a released stream |
| AudioPipeline.ReloadAfterRejectionReleasesTwice | visualizer.c:138 | the next accepted load after that rejection releases the same buffer a second time |
| AudioPipeline.ReloadReleasesWhilePlaying | visualizer.c:138-146 | replacing a playing stereo stream with an accepted mono file releases the old buffer while its device is open, even with no rejection |
| AudioPipeline.CheckedRejectionKeepsPlayingStream | visualizer.c:137-144 | with the corrected load, a stereo load and then a rejected 3-channel load leave the stereo stream and its device playing, nothing released |
| AudioPipeline.CheckedReloadReleasesOnce | visualizer.c:137-158 | with the corrected load, the next accepted load replaces the stream with nothing released twice and nothing released while playing |

## Left out

- The window, renderer, event loop, `draw_bar` and the bar heights (including their `(int)` conversion): platform glue. Only the bars' x-positions are modelled.
- `SDL_LoadWAV` parsing: its result is a `LoadOutcome` parameter.
- `SDL_OpenAudioDevice`, `SDL_CloseAudioDevice` and `SDL_PauseAudioDevice`: the id the open call returns is a parameter, and closing the device sets `deviceId` to 0. Pausing and un-pausing are not modelled.
- `fprintf` of the error message, `raise_error`, `exit`, `main`, `init_fft` and the `destroy_*` functions: I/O and start-up or shutdown.
- Freeing memory is modelled only by the ghost flags `streamReleased`, `releasedTwice` and `releasedWhilePlaying`.
- AudioPipeline.Visualizer.LoadAudioFile: the callback is not interleaved with the load. The window between the free at line 138 and the close at line 146, in which the callback can read the released buffer, is recorded by `releasedWhilePlaying` and not run.
- FFTW plan creation, execution and cleanup: the spectrum is a parameter shaped like `fft_audio_data_out`.
- `cos` in the Hann window, `pow` for the smoothing factor, `powf`/`round` for the bin boundaries, and `log`: these are the parameters `w`, `smoothing`, `bins` and `ln`. Double-precision rounding, infinities and NaN are not modelled. In particular `log(0)` is minus infinity in C; `SilentBarDecays` assumes only `ln(0) <= 0`.
- BarLevels.ValidBoundaries: the precondition `0 <= b[0] <= ... <= b[15] <= 256` stands for what `round((i/15)^1.5 * 256)` produces. The concrete boundary values are not computed.
- `audio_len` is a `uint32_t` and the callback's `len` an `int`: both are `nat` here. Wrap-around is not modelled, and neither is a negative `len`. SDL never passes a negative length, and the cursor never exceeds the stream.
- The race between the audio callback and the render loop on `bar_levels`: concurrency.
- AudioPipeline.Visualizer.ProcessAudio: the spectrum is a parameter, and the contract does not say it is the transform of the frame just filled, because the transform is not modelled.
- AudioPipeline.Visualizer.ProcessAudio: the contract requires a whole frame (`FrameBytes(channels)` bytes) to be readable past the cursor. The fill reads that much even when `audioLen` is smaller, and the source does not ensure it near the end of a stream (see Findings; `ProcessAudioGuarded` needs no such precondition).
- AudioPipeline.Visualizer.ProcessAudio: the callback on a released stream, which the source reaches after a rejected load (see Findings), is a use after free. Its behaviour is undefined and is excluded by the precondition `!streamReleased`, of `ProcessAudioGuarded` too.
- AudioPipeline.Visualizer.LoadAudioFile: the load checks only the channel count (visualizer.c:140). An 8-bit, 32-bit or floating-point WAV is accepted and then read two bytes at a time as 16-bit words. `AudioFormat` records only signedness and byte order, not the sample width, so the model decodes every stream as 16-bit words, as the code does, and cannot state this mismatch.

## Findings

| source | as written | input that shows it | evidently intended | confidence | as-written member | corrected member |
|---|---|---|---|---|---|---|
| visualizer.c:138-144 | The playing stream is released before the channel count is checked. On rejection, `audio_stream`, the cursor and the open device are left as they were, so the callback keeps reading the released buffer, and the next accepted load releases it again (`ReloadAfterRejectionReleasesTwice`). | a stereo WAV is playing, then a 3-channel WAV is dropped | check the channel count first; a rejected load leaves the playing stream and everything else untouched | high; not executed | AudioPipeline.RejectedLoadReleasesPlayingStream | AudioPipeline.Visualizer.LoadAudioFileChecked |
| visualizer.c:138-146 | An accepted load frees the playing buffer first and closes the device that plays it afterwards. | a stereo WAV is playing, then a mono WAV is dropped | close the device before freeing the buffer it plays | medium; not executed | AudioPipeline.ReloadReleasesWhilePlaying | AudioPipeline.Visualizer.LoadAudioFileChecked |
| visualizer.c:119-121 | The device is never paused when the stream ends, and the fill reads a whole frame at the cursor whatever `audio_len` is. Near the end and after it (where `audio_len` is 0 and the cursor is at the end of the buffer) every callback reads up to 2560 bytes past the buffer `SDL_LoadWAV` allocated. | any WAV played to its end: the callback after the last byte finds `audio_len == 0` | analyse a frame only when a whole frame remains (or pause the device at the end) | high; not executed | AudioPipeline.FrameOverReadAsWritten | AudioPipeline.Visualizer.ProcessAudioGuarded |
| visualizer.c:69-71 | A signed sample's bits are read as an unsigned word and offset by 32767: silence becomes almost full negative scale and -1 becomes full positive scale. | a signed stream holding `00 00` or `FF FF` | read the word as `int16_t` and divide by 32768 | high; not executed | Samples.SignedDecodingAsWritten | Samples.GetSampleIntended |
| visualizer.c:65-67 | Both branches of the endianness test put the second byte high, so big-endian streams are decoded byte-swapped. | a big-endian stream holding `00 01` (the value 1) decodes as 256 | put the first byte high for big-endian formats | low: the divergence is latent for WAV input, since it shows only if `SDL_LoadWAV` hands over a big-endian format, which its RIFF loader may never do; not executed | Samples.BigEndianDecodingAsWritten | Samples.GetSampleIntended |
