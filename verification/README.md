# hueplayer: spectrum bands and Hue light commands

HuePlayer plays an audio stream through BASS and drives Philips Hue bulbs
from it. About ten times a second it does three things:

- it takes a 1024-bin FFT snapshot of the audio;
- it cuts the snapshot into one band of bins per light, giving each band an
  intensity in [0,100];
- it sends each light a `set_light` request whose brightness, hue and
  saturation follow that intensity.

This project models that core in Dafny and proves properties of it.

- `spectrum.dfy` (module `Spectrum`) is the band loop of
  `PlayerBackend.play_stream`. `ExtractBands` follows the code step by step:
  the cursor `b0`, the bound `b1` held as a rational number, the two guards,
  the `while b0 < b1` scan and the running peak. It is proved equal to the
  specification function `Analyze`. `Analyze` is built from `Cursor`, the
  cursor after each band, `PeakOf`, the peak over a band's bins, and
  `Level`, the intensity of a peak.
- `lighting.dfy` (module `Lighting`) is the bridge client, a `Bridge` object
  whose `sent` field is the ordered log of `set_light` requests. It also has
  `HuePlayer.LightsInit` and `HuePlayer.HueCallback`, the two loops that
  append to that log, and the colour mapping with its Python 2 integer
  divisions: `65530/100` is 655 and `255/100` is 2.
- `playback.dfy` (module `Playback`) has one iteration of the `while True`
  loop with `hue_callback` as the callback. It also has `play` up to that
  first iteration.

What the proofs establish about the code as written:

- With 2 to 12 lights a pass returns exactly `lights` intensities, each in
  [0,100], one per band in band order.
- Band i reads the bins `Cursor(i)+1 .. Cursor(i+1)`. The cursor grows by
  at least one bin per band. The bands tile the bins `1 .. Cursor(lights)`
  with no gap and no overlap, and bin 0 is never read. With four lights
  the bands are 1..4, 5..7, 8..14 and 15..27.
- After band i the cursor is `max(b0+1, min(ceil(2^i*10/(lights-1)), 1023))`.
  The float `b1` and the `while b0 < b1` loop together produce that
  ceiling.
- With one light the pass raises `ZeroDivisionError`. With 13 lights or more
  it reads `fft[1024]` and raises `IndexError`. Once a clamped bound brings
  the cursor to bin 1023, the next band hits the `b1 = b0 + 1` guard and
  reads `fft[1024]`. For 13 lights that is the last band. For more lights it
  is an earlier one, and the bands after it never run. With zero or fewer
  lights the pass returns an empty list. Light counts are unbounded here; the
  limit of Python 2's `range` on huge counts is listed under "Left out".
- An intensity is `int(min(300*sqrt(peak), 100))`. The model computes it
  without a square root, as the largest k <= 100 with k*k <= 90000*peak.
  The intensity never decreases as the peak grows.
- A band's hue is 655 times its intensity and its saturation 2 times it.
  For intensities in [0,100] that caps hue at 65500 and saturation at 200.

Notable behaviour of the code, which the model keeps:

- The band bound is the ceiling of `2^i*10/(lights-1)`, not its floor.
- An intensity is truncated, not rounded.
- Hue and saturation use 655 and 2, not 655.35 and 2.55, so a full-scale
  band gives hue 65500 and saturation 200, not 65535 and 255.
- One light is not rejected up front; it divides by zero.
- From 13 lights on, the first band that starts at bin 1023 reads past the buffer.
- A failing `set_light` is not caught anywhere.

## Model

| member | source | states |
|---|---|---|
| `Spectrum.ExtractBands` | hueplayer.py:58-76 | The band loop returns exactly what `Analyze` specifies: the band list or the exception. The indices it reads are 1 .. final cursor in increasing order, each once. When it overruns, it reads 1 .. 1023 and then fails. |
| `Spectrum.ReadBand` | hueplayer.py:63-76 | One band succeeds exactly when the next cursor stays within bin 1023. Its cursor then ends at `Next(b0)`, it reads bins b0+1 .. Next(b0), and its intensity is the `Level` of their peak. |
| `Spectrum.ScanBand` | hueplayer.py:69-72 | The `while b0 < b1` scan stops at the ceiling of `b1` with the peak of the bins passed. It fails exactly when that ceiling is beyond bin 1023, after reading up to bin 1023. |
| `Spectrum.ClampedBoundRoundsToNext` | hueplayer.py:64-68 | After the clamp to 1023 and the `b1 <= b0` guard, the float bound lies in (Next-1, Next], where Next is `max(b0+1, min(ceil, 1023))`, and Next > b0. |
| `Spectrum.RawBound` | hueplayer.py:64 | The unclamped bound `2**band*10./(lights-1)`, as an exact rational, is positive. |
| `Spectrum.Candidate` | hueplayer.py:64-72 | The bin where the `while b0 < b1` scan stops for the unclamped bound, its ceiling, is at least 1. `CandidateBounds` and `CandidateIsCeiling` prove it is the ceiling. |
| `Spectrum.CandidateIsCeiling` | hueplayer.py:64 | `2**band*10./(lights-1)` as an exact rational lies in (c-1, c] for the integer candidate c. |
| `Spectrum.CandidateBounds` | hueplayer.py:64 | The integer candidate c satisfies (c-1)*(lights-1) < 2^band*10 <= c*(lights-1), so it is the ceiling. |
| `Spectrum.Next` | hueplayer.py:64-72 | The cursor after one band is strictly beyond `b0`. It is either the clamped bound `min(ceil, 1023)` or, when the `b1 <= b0` guard fires, `b0+1`. It passes bin 1023 only through that guard. |
| `Spectrum.Cursor` | hueplayer.py:64-72 | The cursor after n bands is at least n. Past the first band that reads `fft[1024]` it is the cursor the loop would have reached; the source runs no such band. |
| `Spectrum.CursorMonotone` | hueplayer.py:67-72 | The cursor grows by at least one bin per band: Cursor(i) + (j-i) <= Cursor(j). |
| `Spectrum.BinHasBand` | hueplayer.py:69-72 | Every bin 1 .. Cursor(n) lies in some band i < n. There are no gaps. |
| `Spectrum.BandsDisjoint` | hueplayer.py:69-72 | A bin lies in at most one band, and it is never bin 0. |
| `Spectrum.FourLightBands` | hueplayer.py:64-72 | With four lights the bands end at bins 4, 7, 14 and 27. |
| `Spectrum.PeakOf` | hueplayer.py:63 | The running peak over bins lo+1 .. hi is >= 0 and >= every bin scanned. It is 0 or one of those bins, so it is the maximum of 0 and the bins. |
| `Spectrum.LevelUpTo` | hueplayer.py:73-76 | The result is the largest j <= k with j*j <= scaled. |
| `Spectrum.Level` | hueplayer.py:73-76 | The intensity r is in [0,100] with r*r <= 90000*peak, and either r = 100 or (r+1)^2 > 90000*peak. That is the truncation of min(300*sqrt(peak), 100). |
| `Spectrum.LevelMonotone` | hueplayer.py:73-76 | A higher peak never gives a lower intensity. |
| `Spectrum.BandLevel` | hueplayer.py:63-76 | The intensity of one band that ends inside the buffer is in [0,100]. |
| `Spectrum.BandLevels` | hueplayer.py:61-76 | The band list for n bands has length n. |
| `Spectrum.BandLevelsAt` | hueplayer.py:61-76 | Entry i of the band list is the intensity of band i, and band i ends inside the buffer. |
| `Spectrum.CandidateGrows` | hueplayer.py:64 | With at most 12 lights each band's unclamped bound is strictly beyond the previous band's. |
| `Spectrum.CursorFollowsCandidate` | hueplayer.py:64-72 | With 2 to 12 lights, while the bounds stay below bin 1023, the `b1 <= b0` guard never fires. The cursor after a band is then that band's clamped bound. |
| `Spectrum.PenultimateCandidateInside` | hueplayer.py:64-66 | With 2 to 12 lights, the bound of the band before the last is below bin 1023. |
| `Spectrum.SmallCountsStayInBuffer` | hueplayer.py:59-72 | With 2 to 12 lights every read stays inside the 1024-element buffer. |
| `Spectrum.NumeratorOutgrows` | hueplayer.py:64 | From 13 lights on, 2^(lights-2)*10 > 1022*(lights-1). |
| `Spectrum.LargeCountsOverrun` | hueplayer.py:64-72 | From 13 lights on, band lights-2 ends at bin 1023 or later, and the cursor the loop would reach after all bands is past bin 1023. So some band starts at bin 1023 and reads `fft[1024]`: the last band for 13 lights, an earlier one for more. The source runs no band after it. |
| `Spectrum.Analyze` | hueplayer.py:58-76 | One pass returns a list of `max(lights,0)` intensities or raises. The only faults are the division by zero and the read of `fft[1024]`. It divides by zero exactly when lights = 1. |
| `Spectrum.AnalyzeOutcome` | hueplayer.py:59-72 | A pass raises a division by zero iff lights = 1. It reads `fft[1024]` iff lights >= 13, for unbounded light counts. Otherwise it returns a band list. |
| `Spectrum.AnalyzeBands` | hueplayer.py:61-76 | A returned band list has `lights` entries. Entry i is the `Level` of the peak over bins Cursor(i)+1 .. Cursor(i+1), and it lies in [0,100]. |
| `Spectrum.SilentSnapshot` | hueplayer.py:63-76 | With 2 to 12 lights, a snapshot with no positive bin in 1..1023 gives intensity 0 in every band. |
| `Spectrum.LoudSnapshot` | hueplayer.py:63-76 | With 2 to 12 lights, a snapshot whose bins 1..1023 all reach 1/9 gives intensity 100 in every band. |
| `Lighting.InitCommands` | hueplayer.py:133-134 | For n lights the start-up requests are max(n,0), and request i is `set_light(i+1, 'transitiontime', 0)`. |
| `Lighting.CallbackCommands` | hueplayer.py:149-158 | One request per band. Request i goes to fixture i+1 with the state of band i. |
| `Lighting.Bridge.SetLight` | hueplayer.py:134 | A request is appended after all earlier ones, and the log is otherwise unchanged. |
| `Lighting.HuePlayer.LightsInit` | hueplayer.py:127-134 | The bridge log grows by exactly `InitCommands(lights)`. |
| `Lighting.HuePlayer.HueCallback` | hueplayer.py:136-158 | The bridge log grows by exactly `CallbackCommands(band_list)`, in band order. |
| `Lighting.ColorFor` | hueplayer.py:152-157 | The state for intensity v is bri v, hue 655*v, sat 2*v and transition time 4. |
| `Lighting.ColorRange` | hueplayer.py:153-156 | For v in [0,100]: bri = v, hue in [0,65500] and sat in [0,200]. |
| `Lighting.ColorMonotone` | hueplayer.py:153-155 | Brightness, hue and saturation never decrease as the intensity grows. |
| `Lighting.CallbackFixturesIncrease` | hueplayer.py:149-151 | `hue_callback` addresses fixtures in strictly increasing order. |
| `Playback.TickCommands` | hueplayer.py:77-78 | A pass that raised sends nothing. A returned band list sends one state request per band, to fixtures 1, 2, ... in order. |
| `Playback.PlayTick` | hueplayer.py:58-78 | One tick returns `Analyze` of the snapshot. It appends the `hue_callback` requests of the band list, or nothing when the pass raised. |
| `Playback.Play` | hueplayer.py:109-119 | `play` up to its first tick sends the `lights_init` requests and then the first tick's requests. |
| `Playback.TickCoversEveryLight` | hueplayer.py:58-78 | With 2 to 12 lights a tick sends exactly one state request per light, to fixtures 1..lights in order, with bri in [0,100], hue in [0,65500] and sat in [0,200]. |
| `Playback.FaultyTickSendsNothing` | hueplayer.py:58-78 | With one light, or 13 and more, a tick sends no request. |
| `Playback.SilentTickDarkens` | hueplayer.py:58-78 | With 2 to 12 lights, a silent snapshot sends every light bri 0, hue 0 and sat 0. |
| `Playback.LoudTickSaturates` | hueplayer.py:58-78 | With 2 to 12 lights, a snapshot loud in every bin sends every light bri 100, hue 65500 and sat 200. |

## Left out

- BASS (`BASS_Init`, `BASS_StreamCreateFile`, `BASS_ChannelPlay`, `BASS_ChannelGetData`, `BASS_RecordInit`, `BASS_RecordStart`, the `recording` callback) is foreign C code. The snapshot that `BASS_ChannelGetData` fills is an input sequence of 1024 reals. So `PlayerBackend.init`, `PlayerBackend.get_stream` and the whole of `MicBackend` are not modelled.
- The `while True` loop and its `time.sleep` pacing are wall-clock behaviour that never terminates. `PlayTick` models a single iteration.
- `phue.Bridge` construction (`bridge_init`) and the network effect of `set_light` belong to an external client. A request is only appended to `Bridge.sent`. Every request is assumed to succeed; the source handles no failure.
- The `__main__` block (argparse, `--register`, backend choice) and the class defaults and field copying of `HuePlayer.__init__` are configuration plumbing. `HuePlayer`'s constructor only takes `lights` and a bridge.
- Spectrum.Level: computes `int(min(peak ** .5 * 3 * 100, 100))` in exact real arithmetic. Float rounding of the square root and the product is not modelled, and neither are NaN magnitudes.
- Spectrum.Analyze: light counts are unbounded integers. The size limit of Python 2's list-building `range` (hueplayer.py:62) is not modelled. From about 2^60 lights on a 64-bit build, `range` raises `OverflowError` or `MemoryError` before any read. The model instead predicts the `IndexError` of 13 lights or more.
- Lighting.HuePlayer.LightsInit: for the same reason, the `OverflowError` or `MemoryError` that `range(self.lights)` (hueplayer.py:133) raises for huge counts, before any request is sent, is not modelled.
- Spectrum.ExtractBands: the bound `2 ** band*10./(lights-1)` is an exact rational, not a double. With 2 to 12 lights the denominator d = lights-1 is at most 11. A quotient that is an integer (10/1, 20/2, 40/10, ...) is computed exactly by the double division. Every other quotient lies at least 1/d >= 1/11 from the nearest integer, far beyond the rounding error of a double, so the ceilings agree. With 13 lights or more the model raises the same `IndexError` the floats would.
- `play_stream`'s defaults are not modelled. Only the call from `HuePlayer.play` (hueplayer.py:117-119) is: `callback` is `hue_callback` and `lights` is the player's count. With `callback=None` the band list would be computed and dropped. With `lights=None`, `range(None)` would raise `TypeError`.
- Playback.Play: models `play` only up to its first tick, because the rest is the non-terminating loop.
