# audiosynth in Dafny

A model of the engine of the `audiosynth` JavaScript library (`src/audiosynth.js`)
and of its plucked-string sound profile (`src/profiles/acoustic.js`), with proofs
about both.

`AudioSynth` holds a sample rate and a volume. Each has a clamping setter that
also empties the render cache. The engine keeps two append-only registries, one
of sound profiles and one of modulation functions. Its `generate` method turns a
note and an octave into a frequency. `generateFrequency` then does four things:

- finds the profile, by slot or by name;
- replaces the render's scratch object;
- answers from the cache, or renders the note;
- stores the result in the cache.

The render has two parts. Two loops fill a zero-filled byte buffer with 16-bit
little-endian samples: a linear attack, then a decay. A 44-byte RIFF WAVE header
is put in front of the buffer.

The acoustic profile is a Karplus-Strong string. Its `wave` function keeps a table
of values in the render's scratch object, together with a play cursor and a wrap
counter. The table first fills with random ±1 values. After that, each call
averages the cursor's entry with its successor and advances or resets the cursor.

The files:

- `wrappers.dfy`: `Option` and `Result`.
- `bits.dfy`: the JavaScript number-to-byte conversions (`Uint8Array` stores, `>>`,
  `Math.trunc`, `Math.ceil`), the `pack` helper and little-endian readers, with
  round-trip lemmas.
- `profiles.dfy`: the profile record, and the `Floats` value that stands for the
  floating-point maths the model does not compute.
- `acoustic.dfy`: the acoustic profile. It has the step function `Step`, the
  scratch class `Scratch` whose `Wave` method updates it in place, and the table,
  cursor and counter invariants.
- `render.dfy`: the two render loops over a byte `array`, specified by the
  buffer function `Pcm`.
- `container.dfy`: the header as written, the header the WAVE format prescribes,
  and a WAVE reader, with round trips for both headers.
- `synth.dfy`: the `AudioSynth` class and the functions that specify its methods.

Two things stand in for the environment:

- Every `Math.random()` of the acoustic profile is a bit `coin(i)` supplied by
  the caller, for the wave call of sample `i`.
- The sines, logarithms and real powers of the other profiles and of the decay
  envelope are functions in a `Floats` value. The engine receives that value at
  construction.

## Model

| member | source | states |
|---|---|---|
| Bits.Trunc | src/audiosynth.js:96 | `Math.trunc` rounds toward zero: for non-negative `x` the result is the greatest integer not above `x`, for non-positive `x` the least integer not below it |
| Bits.Ceil | src/audiosynth.js:164 | `Math.ceil` is the least integer not below `x` |
| Bits.ToUint8 | src/audiosynth.js:168 | a store into a `Uint8Array` keeps the value modulo 2^8 |
| Bits.Shr8 | src/audiosynth.js:169 | `x >> 8` is the 32-bit value of `x` divided by 2^8, rounded down, and lies in [-2^23, 2^23) |
| Bits.Shr16 | src/audiosynth.js:179 | `x >> 16` is the 32-bit value of `x` divided by 2^16, rounded down, and lies in [-2^15, 2^15) |
| Bits.Shr24 | src/audiosynth.js:179 | `x >> 24` is the 32-bit value of `x` divided by 2^24, rounded down, and lies in [-2^7, 2^7) |
| Bits.Pack | src/audiosynth.js:179 | `pack(0, x)` is 2 bytes and `pack(1, x)` is 4; each starts with `x` and `x >> 8` as stored bytes |
| Bits.ToInt32 | src/audiosynth.js:169 | the operand of `>>` is congruent to the value modulo 2^32 and lies in [-2^31, 2^31) |
| Bits.Signed16 | src/audiosynth.js:168-169 | the two's-complement reading of 16 bits lies in [-2^15, 2^15) and is congruent to the bits modulo 2^16 |
| Bits.Pack16RoundTrip | src/audiosynth.js:179 | `pack(0, x)` is two bytes that read back, little-endian, as `x` modulo 2^16 |
| Bits.Pack32RoundTrip | src/audiosynth.js:179 | `pack(1, x)` is four bytes that read back as `x` modulo 2^32, so every value in [0, 2^32) comes back exactly |
| Bits.SampleWrap | src/audiosynth.js:168-169 | a sample stored as `[v, v >> 8]` reads back as `v` wrapped into [-2^15, 2^15); there is no saturation, and values in range come back exactly |
| Bits.FullScaleWraps | src/audiosynth.js:168-169 | the full-scale amplitude 32768 reads back as -32768 |
| Acoustic.Step | src/profiles/acoustic.js:5-56 | one `wave` call keeps the scratch state consistent: the table stays within `ceil(period) + 1` entries, the cursor stays within `ceil(period)`, the counter is non-negative, and every entry and the returned value lie in [-1, 1]; after the call all three fields exist |
| Acoustic.Init | src/profiles/acoustic.js:8-16 | fields the scratch object already has are kept; each missing field starts on its own: the table empty, the cursor at 0, the counter at 0 |
| Acoustic.Hundredths | src/profiles/acoustic.js:22-23 | `pHundredth` lies in [0, 99] and is the whole part of 100 times the period's fractional part |
| Acoustic.Smoothed | src/profiles/acoustic.js:32-54 | the post-fill update keeps the same invariant and returns a value in [-1, 1] |
| Acoustic.Run | src/profiles/acoustic.js:5-56 | `n` successive calls return `n` values and leave a consistent state |
| Acoustic.FillStep | src/profiles/acoustic.js:8-16 | while the table is filling, a call appends exactly one value, +1 or -1 as the random bit says, and returns it. Missing fields start as `[]`, 0 and 0. The cursor and the counter keep their values |
| Acoustic.SteadyStep | src/profiles/acoustic.js:32-46 | after the fill the table length stays `ceil(period) + 1`. The cursor's entry becomes the average of itself and its successor (slot 0 after the last slot), and that entry is returned. The entry after the cursor is averaged with slot 0 only in the fractional-wrap branch, and only when the cursor is below `ceil(period)`. No other entry changes |
| Acoustic.CursorStep | src/profiles/acoustic.js:34-52 | after the fill the cursor resets to 0 or advances by one. It stays within `ceil(period)`. It resets exactly in the fractional-wrap branch or at `ceil(period)`; for a whole-number period it wraps exactly at the period |
| Acoustic.CounterStep | src/profiles/acoustic.js:23-39 | the counter never decreases. It grows by exactly one, iff the call is past the fill and in the fractional-wrap branch: cursor in [floor(period), ceil(period)) and `count % 100` at least the period's hundredths |
| Acoustic.FillLength | src/profiles/acoustic.js:27-30 | from a fresh scratch object the table holds `min(n, ceil(period) + 1)` entries after `n` calls |
| Acoustic.FillFromFresh | src/profiles/acoustic.js:8-30 | from a fresh scratch object, each of the first `ceil(period) + 1` calls returns ±1 as its bit says. The table is exactly those values, and the cursor and the counter stay 0 |
| Acoustic.FreshIsReady | src/audiosynth.js:135 | the empty scratch object each render starts from is a consistent state for every non-negative period |
| Acoustic.NoFractionalWrapFromFresh | src/profiles/acoustic.js:23-39 | from a fresh scratch object, when the period's hundredths are not 0, the counter stays 0 over any run and the fractional-wrap branch is never taken |
| Acoustic.CountNeverDecreases | src/profiles/acoustic.js:39 | over any run of calls, the counter never decreases |
| Acoustic.RunValuesBounded | src/profiles/acoustic.js:28-38 | every value a run of calls returns lies in [-1, 1] |
| Acoustic.Scratch.constructor | src/audiosynth.js:135 | a new scratch object has no fields |
| Acoustic.Scratch.Wave | src/profiles/acoustic.js:5-56 | the in-place `wave` leaves the scratch object in the state `Step` gives and returns the value `Step` gives |
| Acoustic.Scratch.Smooth | src/profiles/acoustic.js:32-54 | the in-place post-fill update agrees with `Smoothed` |
| Render.BufferHoldsSamples | src/audiosynth.js:161-164 | for a non-negative duration, `2 * decayLen` is at most the buffer length `ceil(2 * sampleRate * duration)`, so every sample write is in bounds |
| Render.AttackLen | src/audiosynth.js:160 | `attackLen` is `sampleRate * attack` rounded down |
| Render.DecayLen | src/audiosynth.js:161 | `decayLen` is `sampleRate * duration` rounded down, and not negative for a non-negative duration |
| Render.BufferLen | src/audiosynth.js:164 | the buffer length is `2 * sampleRate * duration` rounded up |
| Render.FadeIn | src/audiosynth.js:167 | the attack amplitude is 0 at sample 0, for a silent wave and at volume 0, and reaches `volume * w` when `i` reaches `sampleRate * attack` |
| Render.Decay | src/audiosynth.js:173-174 | the decay amplitude is 0 for a silent wave and at volume 0; its base is 1 at the end of the attack and 0 at the end of the duration |
| Render.Pcm | src/audiosynth.js:164-177 | the rendered buffer has `ceil(2 * sampleRate * duration)` bytes |
| Render.Amplitude | src/audiosynth.js:166-174 | a sample's amplitude is 0 for a silent wave and at volume 0, and sample 0 is silent whenever the attack loop runs |
| Render.Trace | src/audiosynth.js:166-177 | the wave calls of one render return one value per sample; the plucked voice leaves a consistent scratch state |
| Render.WaveAt | src/audiosynth.js:167-174 | a wave call updates the scratch object for the acoustic voice and leaves it alone for an oscillator |
| Render.Render | src/audiosynth.js:160-177 | the two loops fill the fresh buffer with exactly the bytes `Pcm` gives for the values the wave returns in call order, and leave the scratch object in the state those calls produce |
| Render.AttackSample | src/audiosynth.js:166-170 | one attack iteration extends the trace by one wave call and the buffer by that sample's two bytes |
| Render.DecaySample | src/audiosynth.js:172-177 | one decay iteration extends the trace by one wave call and the buffer by that sample's two bytes |
| Render.Written | src/audiosynth.js:168-169 | storing a sample's bytes extends the buffer description by that sample |
| Render.PutSample | src/audiosynth.js:168-169 | `data[i << 1] = val; data[(i << 1) + 1] = val >> 8` changes exactly bytes `2i` and `2i + 1`, to the bytes of `pack(0, trunc(val))` |
| Render.DecayDenominator | src/audiosynth.js:173 | inside the decay loop the denominator `sampleRate * (duration - attack)` is positive |
| Render.SilentTail | src/audiosynth.js:164-172 | the buffer has `ceil(2 * sampleRate * duration)` bytes, and every byte at or past `2 * decayLen` stays 0 |
| Render.FirstSampleSilent | src/audiosynth.js:167 | when the attack loop runs, sample 0 is written as two zero bytes, whatever the wave returned |
| Render.SampleDecodes | src/audiosynth.js:166-177 | every written sample reads back, as a signed 16-bit little-endian value, as its truncated amplitude wrapped into [-2^15, 2^15) |
| Render.OscillatorIgnoresCoin | src/audiosynth.js:153-167 | an oscillator voice's values do not depend on the random bits or on the scratch state |
| Container.Header | src/audiosynth.js:181-196 | the header as written is 44 bytes |
| Container.Layout | src/audiosynth.js:181-196 | every header built from the tags and the packed fields is 44 bytes |
| Container.LayoutRoundTrip | src/audiosynth.js:181-198 | reading a header back gives every field written, each modulo its width: format chunk size 16, audio format 1, channels, sample rate, byte rate `sampleRate * channels * bits / 8`, block align `channels * bits / 8`, bits. The data follows unchanged |
| Container.HeaderRoundTrip | src/audiosynth.js:181-198 | the header as written reads back with the sample rate, channel count and bits it was built from. Its RIFF size reads 52 and its data size `dataLen * channels * bits / 8` |
| Container.StandardRoundTrip | src/audiosynth.js:181-198 | the header the WAVE format prescribes reads back with RIFF size `36 + dataLen` and data size `dataLen` |
| Container.AsWrittenVersusStandard | src/audiosynth.js:183-196 | for mono 16-bit audio the header as written and the prescribed one read back equal except in two fields. The RIFF size is 52, which is right iff there are 16 data bytes. The data size is twice the byte count, which is right iff the buffer is empty |
| Container.TwoHundredBytes | src/audiosynth.js:183-196 | for 200 data bytes the header as written says RIFF size 52 and data size 400, where the format asks for 236 and 200 |
| Synth.BuiltinNames | src/audiosynth.js:63-82 | the built-in profiles are acoustic, edm, organ and piano, in that order, and there are eleven built-in modulation functions |
| Synth.ClampRate | src/audiosynth.js:86 | the stored rate is `floor(rate)` when that lies in [4000, 44100], and otherwise the nearer bound |
| Synth.RateClampIdempotent | src/audiosynth.js:86 | setting the rate to the rate already stored changes nothing |
| Synth.ClampVolume | src/audiosynth.js:96-97 | the stored volume is `trunc(level * 32768)` for a level in [0, 1], 0 below and 32768 above |
| Synth.ClampOctave | src/audiosynth.js:114 | the octave is kept in [1, 8] and otherwise moved to the nearer bound |
| Synth.Pow2 | src/audiosynth.js:115 | `2 ** e` is positive for every integer exponent |
| Synth.Frequency | src/audiosynth.js:115 | a note's frequency is positive |
| Synth.OctaveDoubles | src/audiosynth.js:48-115 | for octaves 1 to 7, one octave up gives exactly twice the frequency |
| Synth.ConcertPitch | src/audiosynth.js:110-115 | A4 is 440 Hz and A5 is 880 Hz. An octave below 1, such as the default 0, sounds as octave 1, and one above 8 sounds as octave 8 |
| Synth.Decimal | src/audiosynth.js:138 | the text of a whole number is a canonical numeral, of one digit exactly when the number is below 10 |
| Synth.DecimalDigits | src/audiosynth.js:119 | reading the numeral of `k` gives `k` back |
| Synth.NumeralIsDecimal | src/audiosynth.js:119 | every canonical numeral is the numeral of the number it reads as |
| Synth.CanonicalIndex | src/audiosynth.js:119 | a string names the array index `k` exactly when it is the numeral of `k`; any other string names no index |
| Synth.Slot | src/audiosynth.js:119-121 | a number names an occupied slot iff it is a whole number below the profile count, and then that slot; a string names slot `k` iff it is the numeral of `k` and `k` is below the count |
| Synth.FirstNamed | src/audiosynth.js:122-128 | the name search finds the first profile with that name, and fails only when no profile has it |
| Synth.Resolve | src/audiosynth.js:119-133 | a resolved profile is an existing slot |
| Synth.ResolveOrder | src/audiosynth.js:119-133 | an occupied slot wins. Otherwise a string selects the first profile of that name. Otherwise the lookup fails with the invalid-sound error, and then no profile has that name. A number that names no occupied slot always fails |
| Synth.InstrumentFor | src/audiosynth.js:228-251 | a string succeeds iff some profile has that name, and takes the first such slot and keeps the string as name; a number succeeds iff it is a whole number below the profile count, and takes that slot and its profile's name; a failure is the invalid-sound error |
| Synth.InstrumentPlaysItsSlot | src/audiosynth.js:228-251 | an instrument's slot holds a profile with the instrument's name, and that slot, given as a number, resolves to itself |
| Synth.Accepted | src/audiosynth.js:262-274 | the values a `load...` call appends are the arguments, in order, up to the first rejected one, which stops the call |
| Synth.AcceptedUpTo | src/audiosynth.js:263-270 | the arguments a `load...` call appends are exactly those before the first rejected one, in argument order |
| Synth.EnvelopeOf | src/audiosynth.js:147-152 | a render uses the engine's rate and volume and the requested duration; a constant attack of 0.002 and dampen of 1 come through unchanged |
| Synth.AcousticEnvelope | src/profiles/acoustic.js:3-4 | the acoustic profile's attack is 0.002 and its dampen is 1 for every rate, frequency and volume |
| Synth.Output | src/audiosynth.js:160-198 | a rendered file is 44 bytes longer than the sample buffer. Its header reads back with the engine's rate, one channel and 16 bits, RIFF size 52 and data size twice the buffer length. Its data is the rendered buffer |
| Synth.AfterRender | src/audiosynth.js:135-177 | a render leaves its fresh scratch object untouched for an oscillator voice and in a consistent plucked-string state otherwise |
| Synth.MonoFile | src/audiosynth.js:181-198 | a mono 16-bit header at a supported rate reads back with that rate, one channel, 16 bits and the data after it |
| Synth.OscillatorDeterministic | src/audiosynth.js:153-177 | a profile with an oscillator voice renders the same file whatever the random bits |
| Synth.KeyOf | src/audiosynth.js:138 | in the cache key a string stands as itself and a whole non-negative number as its numeral |
| Synth.NumberAndNumeral | src/audiosynth.js:119-145 | a slot number and its numeral resolve to the same slot, share a cache key and get the same answer |
| Synth.Respond | src/audiosynth.js:118-145 | an answer is an error exactly when the lookup fails, and then it is the invalid-sound error. A cached key is answered from the cache; an uncached one with the file `Output` renders for the resolved profile |
| Synth.RepeatIsCached | src/audiosynth.js:138-203 | once a call's file is stored, the same call is answered with the same file, whatever its random bits |
| Synth.AnswerAtCurrentRate | src/audiosynth.js:85-108 | when every cached file is at the current rate, so is every answer. This is what emptying the cache in the setters secures |
| Synth.AudioSynth.constructor | src/audiosynth.js:31-83 | a new engine runs at 44100 Hz and full volume, with an empty cache and scratch object, the eleven built-in modulation functions and the four built-in profiles |
| Synth.AudioSynth.SetSampleRate | src/audiosynth.js:85-89 | stores and returns the clamped rate, empties the cache and changes nothing else |
| Synth.AudioSynth.SetVolume | src/audiosynth.js:95-100 | stores and returns the clamped volume, with a default level of 0, empties the cache and changes nothing else |
| Synth.AudioSynth.ClearCache | src/audiosynth.js:106-108 | empties the cache and changes nothing else |
| Synth.AudioSynth.LoadSoundProfile | src/audiosynth.js:262-274 | appends the accepted prefix of the arguments and returns true, or fails with the invalid-profile error at the first rejected argument. Nothing else changes |
| Synth.AudioSynth.LoadModulationFunction | src/audiosynth.js:276-289 | appends the accepted prefix of the arguments and returns true, or fails with the invalid-modulation error at the first rejected argument. Nothing else changes |
| Synth.AudioSynth.ListSounds | src/audiosynth.js:254-260 | returns the profile names in slot order |
| Synth.AudioSynth.ResolveSound | src/audiosynth.js:119-133 | the lookup loop agrees with `Resolve` |
| Synth.AudioSynth.CreateInstrument | src/audiosynth.js:228-252 | a string is looked up by name only, a number by slot only. The result records the name and the slot, or is the invalid-sound error |
| Synth.AudioSynth.GenerateFrequency | src/audiosynth.js:118-210 | a failed lookup returns the error before the scratch object or the cache changes. Otherwise the scratch object is replaced. The answer is what `Respond` gives for the old cache, and a newly rendered file is added to the cache. After a cache hit the scratch object is empty; after a render it is in the state that render leaves. Settings, registries and the engine invariant are kept |
| Synth.AudioSynth.Remember | src/audiosynth.js:203 | storing a file rendered at the current rate keeps the engine invariant |
| Synth.AudioSynth.RenderFile | src/audiosynth.js:147-198 | a render on a fresh scratch object produces the file `Output` describes and leaves the scratch object in the state `AfterRender` gives |
| Synth.AudioSynth.Generate | src/audiosynth.js:110-116 | an unknown note fails with the invalid-note error and changes nothing. Every failure, including a failed sound lookup for a known note, leaves the scratch object in place. A known note is generated at its frequency for the clamped octave, with the answer, cache and scratch state `GenerateFrequency` gives |

## Left out

- The transcendental maths is not computed: the modulation sines, the piano,
  organ and edm waves, piano's logarithmic dampening and the `**` of the decay
  envelope. `Floats` supplies them, and the models of the built-in profiles keep
  only their names, their attack constants and organ's `1 + frequency * 0.01`.
  The arithmetic that is computed is exact real arithmetic, not binary64; the
  lines below for `Acoustic.Step`, `Acoustic.Smoothed` and `Render.Render` say
  where that differs from the code.
- Acoustic.Step computes each table average `(a + b) * 0.5` exactly. The code
  rounds every sum and halving to binary64. The same holds for the fade-in
  factor `i / (sampleRate * attack)` and the decay base of `Render.FadeIn` and
  `Render.Decay`. Wave values, sample amplitudes and the scratch state a render
  leaves (`Acoustic.SteadyStep`, `Acoustic.Scratch.Wave`, `Render.Render`,
  `Synth.AfterRender`) can then differ from the code's in the low bits. Take
  A4 at 44100 Hz (`generateFrequency('acoustic', 440, 2)`) with `coin(i)` true
  for even `i`. From wave call 5985 on, the model returns values whose
  denominator is 2^58, which binary64 cannot hold, and the table's entries reach
  denominators near 2^872. The code holds rounded values instead.
- `Math.random()` is replaced by the caller's bit sequence `coin`.
- The modulation functions are kept only as entries of the registry. The
  built-ins are recorded as amplitude and multiple, and nothing in the model
  calls them.
- `Blob`, `URL.createObjectURL`, `Audio` playback (`play`, `playFrequency`),
  `Date` timing, `console.log`, `debug` and `getVolume` are not modelled. The
  cache holds the file bytes where the code holds a data URI made from them.
- The `AudioSynthInstrument` wrapper only delegates with its slot number; the
  model states what it is created with (`Synth.InstrumentPlaysItsSlot`).
- The bundled `audiosynth.js` and `rollup.config.js` are build output and
  configuration, not part of this model.
- Synth.KeyOf: the cache key is a triple rather than the `':'`-joined text of
  the arguments. A string and a whole non-negative number are keyed by their
  text, so a slot number and its numeral share a key, as in the code. A negative
  whole number is keyed by the name `-` followed by its numeral, as the code
  prints it. Only a number with a fraction is keyed by its value; such a number
  names no profile, so it never reaches the cache. The frequency and duration are
  keyed by value; distinct values print distinctly, except 0 and -0.
- Profile names are strings; a profile whose `name` is not a string is not
  modelled.
- Array and object properties that are not slots are not modelled, such as
  `length` as a sound.
- Synth.AudioSynth.SetSampleRate takes a number. Called with no argument or a
  non-numeric one, the code's `Math.floor` gives NaN, `Math.min` and `Math.max`
  keep it, and NaN is stored as the rate. The next render's attack loop then
  never ends, because `i !== attackLen` stays true. The model's rate always
  lies in [4000, 44100].
- Synth.AudioSynth.SetVolume takes a number. Called with a non-numeric
  argument such as `'x'`, the code stores NaN as the volume, and every sample
  then stores as 0. The model's volume always lies in [0, 32768].
- Synth.AudioSynth.Generate rejects every name outside the twelve notes with the
  invalid-note error. In the code a name inherited by every object, such as
  `toString`, passes the note check and renders with a NaN frequency.
- Synth.OscillatorDeterministic holds for the profiles the model can load. Their
  wave is the plucked string, or a function `floats.wave(id, i, sampleRate,
  frequency)` of its arguments. A profile loaded in the code may also read the
  volume, keep state in `this.lets` or call `Math.random()`, and then its file
  can depend on more than the random bits.
- Acoustic.Smoothed takes the period as the exact real `sampleRate / frequency`.
  Its ceiling, floor and hundredths are computed exactly. The code rounds the
  quotient and `(period - Math.floor(period)) * 100` to binary64 first, so
  `pHundredth` can differ by one at a boundary. At 44100 Hz and frequency
  4405.5944055944055 the code's `pHundredth` is 0, and the model's is 1.
- Render.Render takes `attackLen`, `decayLen` and the buffer length as the floor
  and ceiling of exact real products. The code rounds each product to binary64
  first. At 4000 Hz and duration 2.01 the product is 8039.999999999999 in
  binary64, so the code's `decayLen` is 8039 and the model's is 8040.
  Frequencies are likewise exact reals: a note's frequency is its table value
  times an exact power of two.
- Objects that are not profiles but pass `instanceof Object` are not modelled.
- Synth.AudioSynth.GenerateFrequency requires a positive frequency and
  `0 <= attackLen <= decayLen < 2^30`, with a non-negative duration. The
  decay loop does not terminate when `attackLen > decayLen`. A negative
  duration makes the buffer allocation throw. `i << 1` stays exact only below
  2^30. NaN is not modelled.
- Synth.AudioSynth.Generate: octaves are integers; non-integer octaves are not
  modelled.
- Acoustic.CountNeverDecreases is stated between the start and the end of a run
  of calls, not between any two points of it. The per-call form is
  `Acoustic.CounterStep`.
- Container.Header writes the RIFF size and the data size as the code does,
  not as the WAVE format prescribes. The prescribed header is modelled beside it
  (`Container.StandardHeader`), but the engine does not use it.
