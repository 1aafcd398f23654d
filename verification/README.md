# Polyphon.js: a verified model of the synthesiser

Polyphon.js is a small browser library. It turns a list of notes into an
8-bit mono WAV clip and plays it through an HTML `Audio` element. This
project models the part of the library that computes bytes:

- **`Instr`.** The instrument generators. Each fills one cycle block of `l`
  samples at amplitude `v` with a `while(--n >= 0)` loop (module
  `Instruments`, methods `SquareBlock`, `SawtoothBlock`, `VibrosawBlock`,
  `NoiseBlock`).
- **`wavGen`.** The tone generator:
  - it defaults the volume and updates the shared current instrument;
  - it builds a low block at `127 - vol%127` and a high block at
    `127 + vol%127`;
  - it tiles them and slices the result;
  - with a truthy second pitch, it blends in a second voice.

  Module `Synth` states what a call returns as the function `Tone` and proves
  its properties. The class `Song.Polyphon` runs the same steps imperatively
  in `WavGen`, with the loops and the in-place blend, and is proved equal to
  `Tone`.
- **`atos`.** `String.fromCharCode` over the samples (`Synth.Atos`).
- **`buildSong`.**
  - The per-call cache, keyed by the note.
  - The loop, which runs one step past the end.
  - The concatenation of the 8-bit strings.
  - The WAV data URI: a fixed base64 text for the first 39 header bytes,
    then `btoa` of `"a"`, the four length characters and the samples.
    (`Song.Polyphon.BuildSong`, the specification functions `Song.Step` and
    `Song.Run`, and module `Wav`.)
- **Base64.** `btoa` is modelled as the encoding of section 4 of RFC 4648
  (module `Base64`), with a decoder and the round trip. This lets the model
  show that the fixed text really is the encoding of a canonical PCM WAVE
  header. It also shows that the URI carries the encoding of one contiguous
  stream: the canonical 44-byte header followed by the samples.

JavaScript's number semantics are written out in module `JsNumbers`:

- `x | 0` and `x >> 0` as ToInt32 of the truncation;
- the remainder `%` with the sign of the dividend, so a negative volume is
  modelled as the code computes it;
- `String.fromCharCode` as ToUint16;
- `slice(0, end)` with a negative `end`;
- array holes as `None`.

The pitch arithmetic is floating-point (`Math.pow`, lines 54 and 56). It is a
parameter `cycleOf` that maps a pitch to its block length. The duration
`len * 44100 | 0` is computed on exact reals.

The instrument `vibrosaw` zeroes the samples whose index is divisible by 4
and keeps all the others (`n%4?1:0`, Polyphon.js:46).

## Model

| member | source | states |
|---|---|---|
| JsNumbers.ToInt32 | Polyphon.js:55 | ToInt32 (the conversion of `>> 0` and bitwise or with 0) of an integer lies in [-2^31, 2^31), agrees with the input modulo 2^32, and is the identity on 32-bit values |
| JsNumbers.Trunc | Polyphon.js:44 | truncation toward zero: the floor for non-negative numbers, the least integer at or above a negative number (so -1.5 gives -1), and 0 strictly between -1 and 1 |
| JsNumbers.ToUint16 | Polyphon.js:38 | `String.fromCharCode` keeps the integer part of a sample in [0, 65536) |
| JsNumbers.JsRem | Polyphon.js:59-60 | JavaScript's `%`: the result has the sign of the dividend, is smaller than the divisor in magnitude and differs from the dividend by a multiple of the divisor, which determines it |
| JsNumbers.SliceTo | Polyphon.js:64 | `slice(0, end)` is the prefix of length `end` when that is in range, empty when a negative `end` reaches past the start, and the whole array when `end` is beyond it |
| Instruments.SquareBlock | Polyphon.js:43 | the square block has exactly `l` samples, each equal to `v` |
| Instruments.SawtoothBlock | Polyphon.js:44 | the sawtooth block has `l` samples, sample `n` being the integer sawtooth value `SawSample(v, l, n)`, the exact-real value of the source's expression |
| Instruments.SawSampleMatchesJs | Polyphon.js:44 | for every amplitude below 2^31 the integer sawtooth value equals the exact-real value of the expression `v - (v*(abs(l/2-n)/l)-.5>>0)`, truncation included |
| Instruments.SawSampleBounds | Polyphon.js:44 | every sawtooth sample of a non-negative amplitude lies in [v/2, v] |
| Instruments.VibrosawBlock | Polyphon.js:46 | the vibrosaw block has `l` samples, 0 at every index divisible by 4 and the (exact-real) sawtooth sample at every other index |
| Instruments.Cycle | Polyphon.js:42-46 | the block of every instrument has exactly `l` samples |
| Instruments.Generate | Polyphon.js:43-46 | `Instr[inst].apply(0, [v, l])` returns the block of the selected instrument |
| Instruments.CycleBounds | Polyphon.js:43-46 | every sample of every block lies between 0 and its non-negative amplitude |
| Instruments.Store | Polyphon.js:47 | assigning past the end of a JavaScript array grows it, leaving holes between the old end and the new element |
| Instruments.NoiseBlock | Polyphon.js:47 | the noise block for one random draw is `l` holes with a sample at index 0 (length 1 when `l` is 0), and that sample lies in [0, v) |
| Synth.SampleCount | Polyphon.js:55 | `len * 44100` converted by ToInt32 is a 32-bit integer, 0 for an undefined duration, and the integer part of `len * 44100` whenever that lies in [0, 2^31) |
| Synth.PartLen | Polyphon.js:56 | an undefined pitch gives block length 0; a defined one gives the block length of that pitch |
| Synth.Volume | Polyphon.js:52 | an absent or zero volume becomes 64, any other volume is kept, and the result is never 0 |
| Synth.Low | Polyphon.js:59 | the low amplitude lies in [1, 253], at or below 127 for a non-negative volume and at or above it for a negative one, and 127 minus it agrees with the volume modulo 127 |
| Synth.High | Polyphon.js:60 | the high amplitude lies in [1, 253], mirrors the low one around 127, and it minus 127 agrees with the volume modulo 127 |
| Synth.Amplitudes | Polyphon.js:52-60 | low and high amplitudes sum to 254 and lie in [1, 253]; the default volume gives 63 and 191; a non-negative volume puts low at or below 127 and high at or above it; a multiple of 127 flattens both to 127 |
| Synth.Fill | Polyphon.js:63 | the tiling loop only appends: it keeps what it starts with, returns it unchanged when the target is already reached, and otherwise stops at or past the target by less than one pair |
| Synth.FillShape | Polyphon.js:63 | the tiling loop produces whole copies of the low/high pair, stops within one pair of the target, and leaves an already long enough array alone |
| Synth.Voice | Polyphon.js:59-64 | one voice has `max(0, lenSamples - 101)` samples |
| Synth.VoiceShape | Polyphon.js:59-64 | a voice has `max(0, lenSamples - 101)` samples; sample `i` is `lo[i % 2c]` when `i % 2c < c` and `hi[i % 2c - c]` otherwise |
| Synth.VoiceRange | Polyphon.js:59-64 | every sample of a voice lies in [0, 253] |
| Synth.Blend | Polyphon.js:67 | the blend has as many samples as the voice it overwrites |
| Synth.BlendIsMean | Polyphon.js:67 | the blended sample `127+((a-127)+(b-127))/2` is the mean of the two samples |
| Synth.Tone | Polyphon.js:51-70 | a tone has `max(0, lenSamples - 101)` samples, with or without a second pitch |
| Synth.ToneVoices | Polyphon.js:51-70 | a tone is one voice when the second pitch is falsy; otherwise it is the mean of two voices of equal length, same instrument and same defaulted volume |
| Synth.ToneRange | Polyphon.js:51-70 | every sample of a tone lies in [0, 253] |
| Synth.ToneInstrument | Polyphon.js:53-66 | a note that names an instrument sounds the same whatever the current instrument; any note sounds as if it named the instrument it plays |
| Synth.Atos | Polyphon.js:38 | `atos` yields one code unit per sample, the integer part of every sample in [0, 65536) |
| Synth.ToneBytes | Polyphon.js:65-67 | the string of a tone holds one byte per sample, at most 253; with a second pitch each byte is the floor of the mean of the two voices |
| Song.Keys | Polyphon.js:86-87 | the loop reads `notes.length + 1` keys: every note, then `undefined` |
| Song.Step | Polyphon.js:87-88 | a turn appends exactly the string its key is then cached with and never drops a cached key; a hit (a non-empty cached string) leaves the cache and the current instrument alone; a miss caches the key's fresh sound and sets the current instrument as `wavGen` does |
| Song.Run | Polyphon.js:86-89 | after the loop every key read is in the cache |
| Song.StepInvariant | Polyphon.js:87-88 | one turn keeps every cached string the right length and made of bytes, and appends the duration of its key |
| Song.RunInvariant | Polyphon.js:86-89 | the loop keeps the cache sound, and the song's length is the sum of the durations of the keys |
| Song.StepKeepsCache | Polyphon.js:87-88 | after a turn its key is cached, no earlier entry has changed, and the turn appended exactly the cached string of its key |
| Song.RunConcat | Polyphon.js:86-89 | the song is the concatenation, in note order, of each key's cached string: every key read is cached and each hit repeats the turn that filled it |
| Song.RunIsUncached | Polyphon.js:86-89 | when every note names its instrument the cache is invisible: the song equals every note synthesised afresh, in order |
| Song.SilentStep | Polyphon.js:86-87 | the extra turn at `j == notes.length` appends nothing and leaves the current instrument unchanged |
| Song.CacheHitKeepsFirstSound | Polyphon.js:87-88 | a cache hit skips the instrument change: a repeated note without an instrument replays its first sound and the current instrument stays as the previous note set it |
| Song.Polyphon.Turn | Polyphon.js:87-88 | one turn of the imperative loop updates the string, the cache and the current instrument exactly as `Step` says |
| Song.Synthesize | Polyphon.js:59-64 | building the low and high blocks, tiling and slicing gives exactly `Voice` |
| Song.Mix | Polyphon.js:65-67 | copying the voice into an array and blending in place gives exactly `Blend` of the two voices |
| Song.Tile | Polyphon.js:63 | the `for` loop of `wavGen` builds the tiling of the low/high pair up to the target length |
| Song.BlendInPlace | Polyphon.js:67 | the blend loop overwrites every sample with the blended value and nothing else |
| Song.Polyphon.constructor | Polyphon.js:75-78 | the current instrument starts as square and there is no track |
| Song.Polyphon.WavGen | Polyphon.js:51-70 | `wavGen` returns `Tone` of its arguments under the old current instrument, and sets the current instrument exactly when `inst` is given |
| Song.Polyphon.BuildSong | Polyphon.js:81-101 | `buildSong` leaves the current instrument and the samples as the loop specification `Run` gives them; the samples are bytes, and the track's URI is the WAV scheme followed by the base64 of the whole stream |
| Base64.Encode | Polyphon.js:96-101 | base64 emits four characters per started group of three octets |
| Base64.EncodeAppend | Polyphon.js:96-101 | encoding a whole number of groups then the rest equals encoding the concatenation, so the fixed text and `btoa` of the tail join into one encoding |
| Base64.DecodeEncode | Polyphon.js:96-101 | decoding the encoding of any octets gives them back |
| Wav.Le32RoundTrip | Polyphon.js:97-100 | reading back a 32-bit little-endian field gives its value |
| Wav.PrefixBase64IsHeader | Polyphon.js:96 | the literal `UklGRmisAABXQVZFZm10IBAAAAABAAEARKwAAESsAAABAAgAZGF0` is the base64 of the first 39 bytes of a PCM header: RIFF size 44136, format 1, mono, 44100 Hz, byte rate 44100, block align 1, 8 bits, and `"dat"` |
| Wav.LengthChars | Polyphon.js:97-100 | the four length characters are all bytes |
| Wav.LengthCharsAreLe32 | Polyphon.js:97-100 | the four `fromCharCode(raw.length >> s & 0xff)` characters are the length modulo 2^32 in little-endian order |
| Wav.BtoaInput | Polyphon.js:96-101 | the string given to `btoa` is `"a"`, four characters, then the raw samples, and is all bytes exactly when the samples are |
| Wav.Stream | Polyphon.js:96-101 | the stream is `44 + raw.length` bytes: the 39-byte prefix, `"a"`, the length modulo 2^32 as four little-endian bytes, then the samples |
| Wav.DataUri | Polyphon.js:96-101 | the URI exists (`btoa` does not throw) exactly when every sample is a byte, and then starts with the WAV data scheme |
| Wav.Btoa | Polyphon.js:96-101 | `btoa` succeeds exactly when every code unit is below 256, and then yields the base64 of those bytes |
| Wav.StreamLayout | Polyphon.js:96-101 | the stream is the canonical 44-byte header, with the data size equal to the length, followed by the samples, for a total of `44 + raw.length` |
| Wav.BtoaBytes | Polyphon.js:96-101 | the string given to `btoa` is `"a"`, the 32-bit length and the samples, all bytes |
| Wav.DataUriEncodesStream | Polyphon.js:96-101 | for 8-bit samples `btoa` never throws and the URI is the scheme followed by the base64 of the whole WAV stream |
| Wav.HeaderFields | Polyphon.js:96-100 | every field of the canonical header reads back as written |
| Wav.ParseStream | Polyphon.js:96-101 | parsing the stream gives PCM, mono, 44100 Hz, 8 bits and exactly the samples, for every length below 2^32 |
| Wav.RiffSizeFixed | Polyphon.js:96 | the RIFF size field always reads 44136, which equals the data length plus 36 only for 44100 samples |

## Left out

- `Instr.sine` (Polyphon.js:45) is floating-point (`Math.sin`). It is not part of this model, and `Instrument` has no `sine` case.
- `Instr.noise` (Polyphon.js:47) is modelled by shape only, for one draw of `Math.random()` given as a parameter. It is not an `Instrument` case. The later conversion of its holes by `atos` is not modelled.
- The pitch arithmetic `Math.pow(Math.pow(2,1/12), tone) * 220` and `44100 / freq | 0` (Polyphon.js:54, 56) is floating-point. It is the parameter `cycleOf`, and an undefined pitch gives length 0. `cycleOf` returns a natural number, so a pitch so low (about 280 semitones below 220 Hz) that `44100 / freq | 0` wraps to a negative length, where `new Array` throws a RangeError, is not modelled.
- `len * 44100 | 0` (Polyphon.js:55) is computed on exact reals, not IEEE doubles.
- Instruments.SawSampleMatchesJs: the sawtooth expression of Polyphon.js:44 and 46 is evaluated on exact reals, not IEEE doubles. When the exact value of `v*(abs(l/2-n)/l)` is a half-integer, the rounding of `/l` can put the double product just below it, and `>>0` then truncates one lower. On such inputs the source's sample is one larger than the model's: at `v = 22`, `l = 44`, `n = 7` the source gives 16 and `SawSample` gives 15.
- Instruments.SawtoothBlock: its samples are the exact-real sawtooth; see `Instruments.SawSampleMatchesJs` above.
- Instruments.VibrosawBlock: its non-zero samples are the exact-real sawtooth; see `Instruments.SawSampleMatchesJs` above.
- A note whose block length is 0 while more than 100 samples are asked for makes the tiling loop of Polyphon.js:63 run forever. Such notes are excluded by the precondition `Playable`.
- Song.Keys: the model's cache keys are coarser than the source's. The source keys the cache by the string form of the argument array, so `[0.5,0]` (key `"0.5,0"`) and `[0.5,0,undefined]` (key `"0.5,0,"`) are different keys there, while the model reads both as the same `Note`. For the notes `[[0.5,0],[0.5,0,'sawtooth'],[0.5,0,undefined]]` the source synthesises the third note again with sawtooth; `Song.Run` treats it as a cache hit and replays the first, square, sound. `null` and `undefined` in the same position give the same key in both.
- Notes are the five named arguments of `wavGen`, with an integer pitch and volume and an instrument among square, sawtooth and vibrosaw. Other argument types (strings for numbers, unknown instrument names) are not modelled.
- `String.fromCharCode.apply` argument-count limits of the host engine are not modelled.
- `btoa` throwing on a code unit above 255 is modelled as `None` by `Wav.Btoa`. For the samples `buildSong` produces, `Song.Polyphon.BuildSong` shows it cannot happen.
- The playback layer is left out because it is host timers and audio objects:
  - `track.pause` and `clearInterval` (Polyphon.js:92-93);
  - the `tracks` registry (Polyphon.js:104);
  - `startLoop`, `setTrack`, `addTrack`, `setLoop`, `play`, `pause` and `setInst` (Polyphon.js:107-132).
- The `track` field records only the URI handed to `new Audio`.
- AIFF output exists only as a TODO (Polyphon.js:27, 95) and is not part of this model.
