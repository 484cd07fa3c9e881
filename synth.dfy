/** The `AudioSynth` engine: the sample rate and volume settings with their
    clamping setters, the append-only registries of sound profiles and
    modulation functions, profile lookup by slot or by name, note-to-frequency
    resolution, and `generate`/`generateFrequency`, which render a note into a
    WAVE file and remember it in a cache that the setters empty. */
module Synth {
  import opened Wrappers
  import opened Bits
  import opened Profiles
  import opened Acoustic
  import opened Render
  import opened Container

  /** How a caller names a profile: a number or a string. */
  datatype SoundRef = Number(x: real) | Text(s: string)

  /** The errors the engine throws. */
  datatype Error = InvalidNote(note: string) | InvalidSound(sound: SoundRef) | InvalidProfile | InvalidModulation

  /** An argument of a `load...` method: one it accepts (an object, a function)
      or one it rejects. */
  datatype Candidate<T> = Conforming(value: T) | NonConforming

  /** A modulation function: the built-in ones are `amplitude * sin(multiple * PI * i / sampleRate * frequency + x)`;
      a caller may register any other function. */
  datatype Modulator = Sine(amplitude: real, multiple: real) | Supplied(id: nat)

  /** The result of `createInstrument`: the name it was created under and the
      slot it plays. */
  datatype Instrument = Instrument(name: string, soundID: nat)

  /** How the sound argument reads in a cache key: the text JavaScript turns it
      into, for a string or a whole number, or the number itself otherwise. */
  datatype KeyPart = Name(s: string) | Other(x: real)

  /** The cache key: the arguments `generateFrequency` was called with, joined
      as text, so that a number and the numeral that spells it share a key. */
  datatype CacheKey = CacheKey(sound: KeyPart, frequency: real, duration: real)

  const Builtins: seq<Profile> := [AcousticProfile, Edm, Organ, Piano]

  const BuiltinMods: seq<Modulator> := [
    Sine(1.0, 2.0), Sine(1.0, 2.0), Sine(1.0, 4.0), Sine(1.0, 8.0), Sine(1.0, 0.5), Sine(1.0, 0.25),
    Sine(0.5, 2.0), Sine(0.5, 4.0), Sine(0.5, 8.0), Sine(0.5, 0.5), Sine(0.5, 0.25)]

  /** A new engine lists its profiles as acoustic, edm, organ, piano, and holds
      eleven modulation functions. */
  lemma BuiltinNames()
    ensures |Builtins| == 4 && |BuiltinMods| == 11
    ensures Builtins[0].name == "acoustic" && Builtins[1].name == "edm" &&
            Builtins[2].name == "organ" && Builtins[3].name == "piano"
  {
  }

  /** The frequencies of the twelve notes of octave 4. */
  const Notes: map<string, real> := map[
    "C" := 261.63, "C#" := 277.18, "D" := 293.66, "D#" := 311.13,
    "E" := 329.63, "F" := 349.23, "F#" := 369.99, "G" := 392.00,
    "G#" := 415.30, "A" := 440.00, "A#" := 466.16, "B" := 493.88]

  // ---------------------------------------------------------------- settings

  /** `Math.max(Math.min(Math.floor(rate), 44100), 4000)`. */
  function ClampRate(rate: real): (r: int)
    ensures 4000 <= r <= 44100
    ensures 4000 <= rate.Floor <= 44100 ==> r == rate.Floor
    ensures rate.Floor < 4000 ==> r == 4000
    ensures 44100 < rate.Floor ==> r == 44100
  {
    var floor := rate.Floor;
    var low := if floor < 44100 then floor else 44100;
    if low > 4000 then low else 4000
  }

  /** `trunc(level * 32768)` clamped into [0, 32768]. */
  function ClampVolume(level: real): (v: int)
    ensures 0 <= v <= 32768
    ensures 0.0 <= level <= 1.0 ==> v == Trunc(level * 32768.0)
    ensures level <= 0.0 ==> v == 0
    ensures 1.0 <= level ==> v == 32768
  {
    var t := Trunc(level * 32768.0);
    var low := if t < 32768 then t else 32768;
    if low > 0 then low else 0
  }

  /** Setting a rate that was itself produced by the clamp changes nothing. */
  lemma RateClampIdempotent(rate: real)
    ensures ClampRate(ClampRate(rate) as real) == ClampRate(rate)
  {
  }

  // ----------------------------------------------------------------- notes

  /** `Math.min(8, Math.max(1, octave))`. */
  function ClampOctave(octave: int): (c: int)
    ensures 1 <= c <= 8
    ensures 1 <= octave <= 8 ==> c == octave
    ensures octave < 1 ==> c == 1
    ensures 8 < octave ==> c == 8
  {
    if octave < 1 then 1 else if octave > 8 then 8 else octave
  }

  /** `2 ** e` for an integer exponent, exactly. */
  function Pow2(e: int): (p: real)
    ensures 0.0 < p
    decreases if e < 0 then -e else e
  {
    if e == 0 then 1.0 else if e > 0 then 2.0 * Pow2(e - 1) else Pow2(e + 1) / 2.0
  }

  /** The frequency `generate` asks for: the note's octave-4 frequency times
      `2 ** (octave - 4)`, the octave clamped into [1, 8]. */
  function Frequency(note: string, octave: int): (f: real)
    requires note in Notes
    ensures 0.0 < f
  {
    Notes[note] * Pow2(ClampOctave(octave) - 4)
  }

  /** One octave up doubles the frequency, from octave 1 to octave 8. */
  lemma {:induction false} OctaveDoubles(note: string, octave: int)
    requires note in Notes && 1 <= octave <= 7
    ensures Frequency(note, octave + 1) == 2.0 * Frequency(note, octave)
  {
    var e := octave - 4;
    if e < 0 {
      assert Pow2(e) == Pow2(e + 1) / 2.0;
    } else {
      assert Pow2(e + 1) == 2.0 * Pow2(e);
    }
  }

  /** A in octave 4 is 440 Hz and in octave 5 is 880 Hz; octaves outside [1, 8],
      such as the default 0, sound as the nearest end of that range. */
  lemma {:induction false} ConcertPitch(note: string, octave: int)
    requires note in Notes
    ensures Frequency("A", 4) == 440.0 && Frequency("A", 5) == 880.0
    ensures octave < 1 ==> Frequency(note, octave) == Frequency(note, 1)
    ensures 8 < octave ==> Frequency(note, octave) == Frequency(note, 8)
  {
    assert Pow2(1) == 2.0 * Pow2(0);
  }

  // -------------------------------------------------------- profile lookup

  /** The character of a decimal digit. */
  function Digit(d: nat): (c: char)
    requires d < 10
    ensures '0' <= c <= '9' && c as int - '0' as int == d
  {
    ('0' as int + d) as char
  }

  /** A canonical decimal numeral: digits only, without a leading zero unless
      it is the numeral 0 itself. */
  predicate Numeral(s: string)
  {
    0 < |s| && (forall i :: 0 <= i < |s| ==> '0' <= s[i] <= '9') && (s[0] != '0' || |s| == 1)
  }

  /** The text JavaScript writes for the whole number `k`: its decimal numeral. */
  function Decimal(k: nat): (s: string)
    ensures Numeral(s)
    ensures k < 10 <==> |s| == 1
  {
    if k < 10 then [Digit(k)] else Decimal(k / 10) + [Digit(k % 10)]
  }

  /** The decimal digits of `s`, read as a number. */
  function DigitsValue(s: string): nat
    requires forall i :: 0 <= i < |s| ==> '0' <= s[i] <= '9'
  {
    if |s| == 0 then 0 else 10 * DigitsValue(s[..|s| - 1]) + (s[|s| - 1] as int - '0' as int)
  }

  /** Reading a number's numeral gives the number back. */
  lemma {:induction false} DecimalDigits(k: nat)
    ensures DigitsValue(Decimal(k)) == k
  {
    if k >= 10 {
      DecimalDigits(k / 10);
      var s := Decimal(k);
      assert s[..|s| - 1] == Decimal(k / 10);
    }
  }

  /** A numeral whose first digit is not 0 reads as a positive number. */
  lemma {:induction false} LeadingDigitPositive(s: string)
    requires Numeral(s) && s[0] != '0'
    ensures 1 <= DigitsValue(s)
  {
    if |s| > 1 {
      LeadingDigitPositive(s[..|s| - 1]);
    }
  }

  /** Every canonical numeral is the numeral of the number it reads as. */
  lemma {:induction false} NumeralIsDecimal(s: string)
    requires Numeral(s)
    ensures Decimal(DigitsValue(s)) == s
  {
    if |s| > 1 {
      var p := s[..|s| - 1];
      NumeralIsDecimal(p);
      LeadingDigitPositive(p);
      var v, d := DigitsValue(p), s[|s| - 1] as int - '0' as int;
      assert DigitsValue(s) == 10 * v + d;
      assert s == p + [s[|s| - 1]];
    }
  }

  /** The array index a string names as a property key: exactly the strings
      that are the decimal numeral of a number name that number, and no other
      string names an index. */
  function CanonicalIndex(s: string): (r: Option<nat>)
    ensures forall k: nat {:trigger Decimal(k)} :: r == Some(k) <==> Decimal(k) == s
  {
    if Numeral(s) then
      NumeralIsDecimal(s);
      assert forall k: nat {:trigger Decimal(k)} :: Decimal(k) == s ==> DigitsValue(s) == k by {
        forall k: nat | Decimal(k) == s
          ensures DigitsValue(s) == k
        {
          DecimalDigits(k);
        }
      }
      Some(DigitsValue(s))
    else
      None
  }

  /** The slot `sounds[sound]` reads, when it names an occupied one: a whole
      number, or a canonical numeral, below the number of profiles. */
  function Slot(sound: SoundRef, count: nat): (r: Option<nat>)
    ensures r.Some? ==> r.value < count
    ensures sound.Number? ==> (r.Some? <==> sound.x == sound.x.Floor as real && 0 <= sound.x.Floor < count)
    ensures r.Some? && sound.Number? ==> r.value as real == sound.x
    ensures sound.Text? ==> forall k: nat {:trigger Decimal(k)} :: r == Some(k) <==> k < count && Decimal(k) == sound.s
  {
    match sound
    case Number(x) => if x == x.Floor as real && 0 <= x.Floor < count then Some(x.Floor) else None
    case Text(s) =>
      var k := CanonicalIndex(s);
      if k.Some? && k.value < count then k else None
  }

  /** The first slot whose profile has the given name. */
  function FirstNamed(sounds: seq<Profile>, name: string): (r: Option<nat>)
    ensures r.Some? ==> r.value < |sounds| && sounds[r.value].name == name &&
                        forall j :: 0 <= j < r.value ==> sounds[j].name != name
    ensures r.None? ==> forall j :: 0 <= j < |sounds| ==> sounds[j].name != name
  {
    if |sounds| == 0 then None
    else
      var earlier := FirstNamed(sounds[..|sounds| - 1], name);
      if earlier.Some? then earlier
      else if sounds[|sounds| - 1].name == name then Some(|sounds| - 1)
      else None
  }

  /** The profile `generateFrequency` plays: the slot the argument names,
      otherwise the first profile of that name, otherwise an error. */
  function Resolve(sounds: seq<Profile>, sound: SoundRef): (r: Result<nat, Error>)
    ensures r.Ok? ==> r.value < |sounds|
  {
    match Slot(sound, |sounds|)
    case Some(i) => Ok(i)
    case None =>
      if sound.Text? && FirstNamed(sounds, sound.s).Some? then Ok(FirstNamed(sounds, sound.s).value)
      else Err(InvalidSound(sound))
  }

  /** The three outcomes of the lookup, in the order they are tried: an
      occupied slot wins; otherwise a string finds the first profile with that
      name; otherwise the lookup fails, and then no profile carries that name. */
  lemma ResolveOrder(sounds: seq<Profile>, sound: SoundRef)
    ensures Slot(sound, |sounds|).Some? ==> Resolve(sounds, sound) == Ok(Slot(sound, |sounds|).value)
    ensures Slot(sound, |sounds|).None? && sound.Text? ==>
      forall i :: Resolve(sounds, sound) == Ok(i) <==>
        0 <= i < |sounds| && sounds[i].name == sound.s && forall j :: 0 <= j < i ==> sounds[j].name != sound.s
    ensures Slot(sound, |sounds|).None? && sound.Number? ==> Resolve(sounds, sound) == Err(InvalidSound(sound))
    ensures Resolve(sounds, sound).Err? ==>
      Resolve(sounds, sound).error == InvalidSound(sound) && Slot(sound, |sounds|).None? &&
      (sound.Text? ==> forall j :: 0 <= j < |sounds| ==> sounds[j].name != sound.s)
  {
  }

  /** What `createInstrument` finds: a string is looked up by name only, a
      number by slot only; the instrument keeps the string it was given, or the
      name of the slot. */
  function InstrumentFor(sounds: seq<Profile>, sound: SoundRef): (r: Result<Instrument, Error>)
    ensures r.Ok? ==> r.value.soundID < |sounds| && sounds[r.value.soundID].name == r.value.name
    ensures r.Err? ==> r.error == InvalidSound(sound)
    ensures sound.Text? ==> (r.Ok? <==> exists j :: 0 <= j < |sounds| && sounds[j].name == sound.s)
    ensures sound.Text? && r.Ok? ==>
      r.value.name == sound.s && forall j :: 0 <= j < r.value.soundID ==> sounds[j].name != sound.s
    ensures sound.Number? ==>
      (r.Ok? <==> sound.x == sound.x.Floor as real && 0 <= sound.x.Floor < |sounds|) &&
      (r.Ok? ==> r.value.soundID as real == sound.x)
  {
    match sound
    case Text(s) =>
      var i := FirstNamed(sounds, s);
      if i.Some? then Ok(Instrument(s, i.value)) else Err(InvalidSound(sound))
    case Number(_) =>
      var i := Slot(sound, |sounds|);
      if i.Some? then Ok(Instrument(sounds[i.value].name, i.value)) else Err(InvalidSound(sound))
  }

  /** An instrument plays the profile it was created for: its slot resolves to
      itself, and the profile there has the instrument's name. */
  lemma InstrumentPlaysItsSlot(sounds: seq<Profile>, sound: SoundRef)
    requires InstrumentFor(sounds, sound).Ok?
    ensures var ins := InstrumentFor(sounds, sound).value;
      ins.soundID < |sounds| && sounds[ins.soundID].name == ins.name &&
      Resolve(sounds, Number(ins.soundID as real)) == Ok(ins.soundID)
  {
  }

  // ----------------------------------------------------------- registries

  /** The values of the arguments a `load...` call appends: those before the
      first one it rejects. */
  function Accepted<T>(args: seq<Candidate<T>>): (r: seq<T>)
    ensures |r| <= |args|
    ensures forall k :: 0 <= k < |r| ==> args[k] == Conforming(r[k])
    ensures |r| < |args| ==> args[|r|].NonConforming?
  {
    if |args| == 0 || args[0].NonConforming? then [] else [args[0].value] + Accepted(args[1..])
  }

  /** Whether every argument is accepted, so that the call returns normally. */
  predicate AllConforming<T>(args: seq<Candidate<T>>)
  {
    forall k :: 0 <= k < |args| ==> args[k].Conforming?
  }

  /** `Accepted` is the run of accepted arguments up to the first rejected one,
      in argument order: when the first `i` arguments conform and the next one
      does not (or there is none), it holds exactly their values. */
  lemma {:induction false} AcceptedUpTo<T>(args: seq<Candidate<T>>, i: nat)
    requires i <= |args| && forall k :: 0 <= k < i ==> args[k].Conforming?
    requires i == |args| || args[i].NonConforming?
    ensures |Accepted(args)| == i
    ensures forall k :: 0 <= k < i ==> Accepted(args)[k] == args[k].value
  {
    if i > 0 {
      AcceptedUpTo(args[1..], i - 1);
    }
  }

  // --------------------------------------------------------------- output

  /** The envelope of one render: the engine's rate and volume, the profile's
      attack and dampen for this note, and the requested duration. */
  function EnvelopeOf(profile: Profile, floats: Floats, sampleRate: nat, volume: nat, frequency: real, duration: real)
    : (e: Envelope)
    ensures e.sampleRate == sampleRate && e.volume == volume && e.duration == duration
    ensures profile.attack == Fixed(0.002) && profile.dampen == Fixed(1.0) ==> e.attack == 0.002 && e.dampen == 1.0
  {
    Envelope(sampleRate, volume, Eval(profile.attack, floats, sampleRate, frequency, volume),
             Eval(profile.dampen, floats, sampleRate, frequency, volume), duration)
  }

  /** The acoustic profile's envelope is the same for every rate, frequency and
      volume: 0.002 s of attack and a dampening exponent of 1. */
  lemma AcousticEnvelope(floats: Floats, sampleRate: nat, volume: nat, frequency: real, duration: real)
    ensures var e := EnvelopeOf(AcousticProfile, floats, sampleRate, volume, frequency, duration);
      e.attack == 0.002 && e.dampen == 1.0
  {
  }

  /** The requests `generateFrequency` can serve: a positive frequency and an
      envelope whose loops terminate. */
  predicate Audible(profile: Profile, floats: Floats, sampleRate: nat, volume: nat, frequency: real, duration: real)
  {
    0.0 < frequency && 4000 <= sampleRate <= 44100 &&
    Renderable(EnvelopeOf(profile, floats, sampleRate, volume, frequency, duration))
  }

  /** The wave values of the first `n` samples, starting from a fresh scratch
      object. */
  function FreshTrace(voice: Voice, sampleRate: nat, frequency: real, coin: nat -> bool, floats: Floats, n: nat)
    : (w: seq<real>)
    requires 0.0 < frequency
    ensures |w| == n
  {
    FreshIsReady(sampleRate as real / frequency);
    Trace(voice, Fresh, sampleRate, frequency, coin, floats, n).1
  }

  /** The state one render leaves the fresh scratch object in: untouched by an
      oscillator voice, and still a consistent table for a plucked one. */
  function AfterRender(profile: Profile, floats: Floats, sampleRate: nat, volume: nat, frequency: real, duration: real,
                       coin: nat -> bool): (s: Lets)
    requires Audible(profile, floats, sampleRate, volume, frequency, duration)
    ensures profile.voice.Oscillator? ==> s == Fresh
    ensures profile.voice.Plucked? ==> Ready(s, sampleRate as real / frequency)
  {
    var e := EnvelopeOf(profile, floats, sampleRate, volume, frequency, duration);
    FreshIsReady(sampleRate as real / frequency);
    Trace(profile.voice, Fresh, sampleRate, frequency, coin, floats, DecayLen(e)).0
  }

  /** The WAVE file one render produces from a fresh scratch object: a mono
      16-bit header at the engine's rate followed by the rendered buffer. */
  function Output(profile: Profile, floats: Floats, sampleRate: nat, volume: nat, frequency: real, duration: real,
                  coin: nat -> bool): (out: seq<byte>)
    requires Audible(profile, floats, sampleRate, volume, frequency, duration)
    ensures var e := EnvelopeOf(profile, floats, sampleRate, volume, frequency, duration);
      var f := ParseWav(out);
      |out| == 44 + BufferLen(e) &&
      f.Some? && f.value.sampleRate == sampleRate && f.value.channels == 1 && f.value.bits == 16 &&
      f.value.riffSize == 52 && f.value.dataSize == (2 * BufferLen(e)) % TwoTo32 &&
      f.value.body == Pcm(e, floats, FreshTrace(profile.voice, sampleRate, frequency, coin, floats, DecayLen(e)))
  {
    var e := EnvelopeOf(profile, floats, sampleRate, volume, frequency, duration);
    var data := Pcm(e, floats, FreshTrace(profile.voice, sampleRate, frequency, coin, floats, DecayLen(e)));
    MonoFile(sampleRate, data);
    Header(sampleRate, 1, 16, |data|) + data
  }

  /** A mono 16-bit file at a supported rate parses back with that rate, one
      channel, 16 bits, the RIFF size as written, twice the byte count as data
      size, and the data. */
  lemma MonoFile(sampleRate: nat, data: seq<byte>)
    requires 4000 <= sampleRate <= 44100
    ensures var out := Header(sampleRate, 1, 16, |data|) + data;
      var f := ParseWav(out);
      |out| == 44 + |data| &&
      f.Some? && f.value.sampleRate == sampleRate && f.value.channels == 1 && f.value.bits == 16 &&
      f.value.riffSize == 52 && f.value.dataSize == (2 * |data|) % TwoTo32 && f.value.body == data
  {
    HeaderRoundTrip(sampleRate, 1, 16, data);
    assert |data| * 1 * 16 / 8 == 2 * |data|;
  }

  /** A profile with an oscillator voice renders the same file whatever the
      random bits. */
  lemma OscillatorDeterministic(profile: Profile, floats: Floats, sampleRate: nat, volume: nat, frequency: real,
                                duration: real, coin0: nat -> bool, coin1: nat -> bool)
    requires Audible(profile, floats, sampleRate, volume, frequency, duration) && profile.voice.Oscillator?
    ensures Output(profile, floats, sampleRate, volume, frequency, duration, coin0) ==
            Output(profile, floats, sampleRate, volume, frequency, duration, coin1)
  {
    var e := EnvelopeOf(profile, floats, sampleRate, volume, frequency, duration);
    OscillatorIgnoresCoin(profile.voice.id, Fresh, Fresh, sampleRate, frequency, coin0, coin1, floats, DecayLen(e));
  }

  /** What the sound argument contributes to the cache key: a string as it is,
      a whole number as its numeral (after a `-` when negative). A number with
      a fraction keeps its value: it names no slot and is not a string, so its
      lookup fails before the cache is consulted. */
  function KeyOf(sound: SoundRef): (p: KeyPart)
    ensures sound.Text? ==> p == Name(sound.s)
    ensures forall k: nat {:trigger Decimal(k)} :: sound == Number(k as real) ==> p == Name(Decimal(k))
  {
    match sound
    case Text(s) => Name(s)
    case Number(x) =>
      if x != x.Floor as real then Other(x)
      else if 0 <= x.Floor then Name(Decimal(x.Floor))
      else Name(['-'] + Decimal(-x.Floor))
  }

  /** A slot number and the numeral that spells it name the same slot and share
      a cache key, so they are answered alike; a file cached under one is the
      answer for the other. */
  lemma NumberAndNumeral(sounds: seq<Profile>, cache: map<CacheKey, seq<byte>>, floats: Floats, sampleRate: nat,
                         volume: nat, k: nat, frequency: real, duration: real, coin: nat -> bool)
    requires k < |sounds| && Audible(sounds[k], floats, sampleRate, volume, frequency, duration)
    ensures KeyOf(Number(k as real)) == KeyOf(Text(Decimal(k)))
    ensures Resolve(sounds, Number(k as real)) == Resolve(sounds, Text(Decimal(k))) == Ok(k)
    ensures Respond(sounds, cache, floats, sampleRate, volume, Number(k as real), frequency, duration, coin) ==
            Respond(sounds, cache, floats, sampleRate, volume, Text(Decimal(k)), frequency, duration, coin)
  {
  }

  /** What `generateFrequency` answers in a given engine state: the lookup's
      error, the cached file for the same arguments, or a fresh render. */
  function Respond(sounds: seq<Profile>, cache: map<CacheKey, seq<byte>>, floats: Floats, sampleRate: nat, volume: nat,
                   sound: SoundRef, frequency: real, duration: real, coin: nat -> bool): (r: Result<seq<byte>, Error>)
    requires Resolve(sounds, sound).Ok? ==>
      Audible(sounds[Resolve(sounds, sound).value], floats, sampleRate, volume, frequency, duration)
    ensures r.Err? <==> Resolve(sounds, sound).Err?
    ensures r.Err? ==> r.error == InvalidSound(sound)
    ensures CacheKey(KeyOf(sound), frequency, duration) in cache && r.Ok? ==> r.value == cache[CacheKey(KeyOf(sound), frequency, duration)]
    ensures CacheKey(KeyOf(sound), frequency, duration) !in cache && r.Ok? ==>
      r.value == Output(sounds[Resolve(sounds, sound).value], floats, sampleRate, volume, frequency, duration, coin)
  {
    match Resolve(sounds, sound)
    case Err(e) => Err(e)
    case Ok(i) =>
      var key := CacheKey(KeyOf(sound), frequency, duration);
      if key in cache then Ok(cache[key])
      else Ok(Output(sounds[i], floats, sampleRate, volume, frequency, duration, coin))
  }

  /** The cache is transparent: once a call has been answered and its file
      stored, the same call is answered with the same file, whatever the random
      bits of the second call. */
  lemma RepeatIsCached(sounds: seq<Profile>, cache: map<CacheKey, seq<byte>>, floats: Floats, sampleRate: nat,
                       volume: nat, sound: SoundRef, frequency: real, duration: real, coin0: nat -> bool,
                       coin1: nat -> bool)
    requires Resolve(sounds, sound).Ok? ==>
      Audible(sounds[Resolve(sounds, sound).value], floats, sampleRate, volume, frequency, duration)
    ensures var r := Respond(sounds, cache, floats, sampleRate, volume, sound, frequency, duration, coin0);
      var key := CacheKey(KeyOf(sound), frequency, duration);
      var cache' := if r.Ok? && key !in cache then cache[key := r.value] else cache;
      Respond(sounds, cache', floats, sampleRate, volume, sound, frequency, duration, coin1) == r
  {
  }

  /** Every answer is a file at the engine's current rate, provided every cached
      file is: the reason the rate setter empties the cache. */
  lemma AnswerAtCurrentRate(sounds: seq<Profile>, cache: map<CacheKey, seq<byte>>, floats: Floats, sampleRate: nat,
                            volume: nat, sound: SoundRef, frequency: real, duration: real, coin: nat -> bool)
    requires Resolve(sounds, sound).Ok? ==>
      Audible(sounds[Resolve(sounds, sound).value], floats, sampleRate, volume, frequency, duration)
    requires forall key :: key in cache ==> RenderedAt(cache[key], sampleRate)
    ensures var r := Respond(sounds, cache, floats, sampleRate, volume, sound, frequency, duration, coin);
      r.Ok? ==> RenderedAt(r.value, sampleRate)
  {
  }

  /** The built-in profiles and modulation functions are still the first
      entries of their registries. */
  predicate BuiltinsFirst(sounds: seq<Profile>, mods: seq<Modulator>)
  {
    |sounds| >= 4 && sounds[..4] == Builtins && |mods| >= 11 && mods[..11] == BuiltinMods
  }

  /** A cached file was rendered at the given sample rate. */
  predicate RenderedAt(file: seq<byte>, sampleRate: int)
  {
    ParseWav(file).Some? && ParseWav(file).value.sampleRate == sampleRate
  }

  class AudioSynth {
    var sampleRate: nat
    var volume: nat
    const channels: nat := 1
    const bitsPerSample: nat := 16
    var sounds: seq<Profile>
    var mods: seq<Modulator>
    var cache: map<CacheKey, seq<byte>>
    var temp: Scratch
    const floats: Floats

    /** The engine's invariant: settings within their clamps, the built-in
        profiles and modulation functions still first in their registries, and
        every cached file rendered at the current sample rate. */
    predicate Valid()
      reads this
    {
      4000 <= sampleRate <= 44100 && volume <= 32768 &&
      BuiltinsFirst(sounds, mods) &&
      forall key :: key in cache ==> RenderedAt(cache[key], sampleRate)
    }

    /** Whether `generateFrequency(sound, frequency, duration)` can be served. */
    predicate Playable(sound: SoundRef, frequency: real, duration: real)
      reads this
    {
      Resolve(sounds, sound).Ok? ==>
        Audible(sounds[Resolve(sounds, sound).value], floats, sampleRate, volume, frequency, duration)
    }

    /** A new engine: 44100 Hz, full volume, an empty cache and scratch object,
        the eleven built-in modulation functions and the four built-in profiles. */
    constructor (floats: Floats)
      ensures Valid()
      ensures sampleRate == 44100 && volume == 32768 && cache == map[]
      ensures sounds == Builtins && mods == BuiltinMods && temp.State() == Fresh && this.floats == floats
    {
      sampleRate := 44100;
      volume := 32768;
      cache := map[];
      temp := new Scratch();
      sounds := [];
      mods := BuiltinMods;
      this.floats := floats;
      new;
      var _ := LoadSoundProfile([Conforming(AcousticProfile), Conforming(Edm), Conforming(Organ), Conforming(Piano)]);
      AcceptedUpTo([Conforming(AcousticProfile), Conforming(Edm), Conforming(Organ), Conforming(Piano)], 4);
    }

    /** Stores and returns the clamped rate, and empties the cache. */
    method SetSampleRate(rate: real) returns (r: int)
      requires Valid()
      modifies this
      ensures Valid()
      ensures sampleRate == r == ClampRate(rate) && cache == map[]
      ensures volume == old(volume) && sounds == old(sounds) && mods == old(mods) && temp == old(temp)
    {
      sampleRate := ClampRate(rate);
      ClearCache();
      r := sampleRate;
    }

    /** Stores and returns the clamped volume, and empties the cache. */
    method SetVolume(level: real := 0.0) returns (r: int)
      requires Valid()
      modifies this
      ensures Valid()
      ensures volume == r == ClampVolume(level) && cache == map[]
      ensures sampleRate == old(sampleRate) && sounds == old(sounds) && mods == old(mods) && temp == old(temp)
    {
      volume := ClampVolume(level);
      ClearCache();
      r := volume;
    }

    method ClearCache()
      modifies this
      ensures cache == map[]
      ensures sampleRate == old(sampleRate) && volume == old(volume) && sounds == old(sounds) && mods == old(mods)
      ensures temp == old(temp)
    {
      cache := map[];
    }

    /** Appends the accepted profiles in argument order; the first rejected
        argument stops the call with an error, keeping what it appended before. */
    method LoadSoundProfile(args: seq<Candidate<Profile>>) returns (r: Result<bool, Error>)
      modifies this
      ensures sounds == old(sounds) + Accepted(args)
      ensures r == if AllConforming(args) then Ok(true) else Err(InvalidProfile)
      ensures sampleRate == old(sampleRate) && volume == old(volume) && mods == old(mods) && cache == old(cache)
      ensures temp == old(temp)
      ensures old(Valid()) ==> Valid()
    {
      var i := 0;
      while i < |args|
        invariant 0 <= i <= |args| && forall k :: 0 <= k < i ==> args[k].Conforming?
        invariant sounds == old(sounds) + seq(i, k requires 0 <= k < i => args[k].value)
        invariant sampleRate == old(sampleRate) && volume == old(volume) && mods == old(mods) && cache == old(cache)
        invariant temp == old(temp)
      {
        if args[i].NonConforming? {
          AcceptedUpTo(args, i);
          assert Accepted(args) == seq(i, k requires 0 <= k < i => args[k].value);
          return Err(InvalidProfile);
        }
        sounds := sounds + [args[i].value];
        i := i + 1;
      }
      AcceptedUpTo(args, i);
      assert Accepted(args) == seq(i, k requires 0 <= k < i => args[k].value);
      r := Ok(true);
    }

    /** Appends the accepted modulation functions in argument order; the first
        rejected argument stops the call with an error, keeping what it
        appended before. */
    method LoadModulationFunction(args: seq<Candidate<Modulator>>) returns (r: Result<bool, Error>)
      modifies this
      ensures mods == old(mods) + Accepted(args)
      ensures r == if AllConforming(args) then Ok(true) else Err(InvalidModulation)
      ensures sampleRate == old(sampleRate) && volume == old(volume) && sounds == old(sounds) && cache == old(cache)
      ensures temp == old(temp)
      ensures old(Valid()) ==> Valid()
    {
      var i := 0;
      while i < |args|
        invariant 0 <= i <= |args| && forall k :: 0 <= k < i ==> args[k].Conforming?
        invariant mods == old(mods) + seq(i, k requires 0 <= k < i => args[k].value)
        invariant sampleRate == old(sampleRate) && volume == old(volume) && sounds == old(sounds) && cache == old(cache)
        invariant temp == old(temp)
      {
        if args[i].NonConforming? {
          AcceptedUpTo(args, i);
          assert Accepted(args) == seq(i, k requires 0 <= k < i => args[k].value);
          return Err(InvalidModulation);
        }
        mods := mods + [args[i].value];
        i := i + 1;
      }
      AcceptedUpTo(args, i);
      assert Accepted(args) == seq(i, k requires 0 <= k < i => args[k].value);
      r := Ok(true);
    }

    /** The names of the profiles, in slot order. */
    method ListSounds() returns (names: seq<string>)
      ensures |names| == |sounds|
      ensures forall i :: 0 <= i < |sounds| ==> names[i] == sounds[i].name
    {
      names := [];
      var i := 0;
      while i < |sounds|
        invariant 0 <= i <= |sounds| && |names| == i
        invariant forall k :: 0 <= k < i ==> names[k] == sounds[k].name
      {
        names := names + [sounds[i].name];
        i := i + 1;
      }
    }

    /** The lookup at the head of `generateFrequency`. */
    method ResolveSound(sound: SoundRef) returns (r: Result<nat, Error>)
      ensures r == Resolve(sounds, sound)
    {
      var slot := Slot(sound, |sounds|);
      if slot.Some? {
        return Ok(slot.value);
      }
      if sound.Text? {
        var i := 0;
        while i < |sounds|
          invariant 0 <= i <= |sounds|
          invariant forall j :: 0 <= j < i ==> sounds[j].name != sound.s
        {
          if sounds[i].name == sound.s {
            return Ok(i);
          }
          i := i + 1;
        }
      }
      r := Err(InvalidSound(sound));
    }

    /** `createInstrument(sound)`. */
    method CreateInstrument(sound: SoundRef) returns (r: Result<Instrument, Error>)
      ensures r == InstrumentFor(sounds, sound)
    {
      if sound.Text? {
        var i := 0;
        while i < |sounds|
          invariant 0 <= i <= |sounds|
          invariant forall j :: 0 <= j < i ==> sounds[j].name != sound.s
        {
          if sounds[i].name == sound.s {
            return Ok(Instrument(sound.s, i));
          }
          i := i + 1;
        }
        return Err(InvalidSound(sound));
      }
      var slot := Slot(sound, |sounds|);
      if slot.Some? {
        return Ok(Instrument(sounds[slot.value].name, slot.value));
      }
      r := Err(InvalidSound(sound));
    }

    /** `generateFrequency(sound, frequency, duration)`: an unknown sound fails
        before anything changes; otherwise the scratch object is replaced by a
        fresh one, and the file is taken from the cache or rendered and stored
        there. */
    method GenerateFrequency(sound: SoundRef, frequency: real, duration: real, coin: nat -> bool)
      returns (r: Result<seq<byte>, Error>)
      requires Valid() && Playable(sound, frequency, duration)
      modifies this
      ensures Valid()
      ensures sampleRate == old(sampleRate) && volume == old(volume) && sounds == old(sounds) && mods == old(mods)
      ensures r == Respond(sounds, old(cache), floats, sampleRate, volume, sound, frequency, duration, coin)
      ensures cache == if r.Ok? && CacheKey(KeyOf(sound), frequency, duration) !in old(cache)
                       then old(cache)[CacheKey(KeyOf(sound), frequency, duration) := r.value] else old(cache)
      ensures r.Err? ==> temp == old(temp)
      ensures r.Ok? ==> fresh(temp)
      ensures r.Ok? ==>
        temp.State() ==
          if CacheKey(KeyOf(sound), frequency, duration) in old(cache) then Fresh
          else AfterRender(sounds[Resolve(sounds, sound).value], floats, sampleRate, volume, frequency, duration, coin)
    {
      var slot := ResolveSound(sound);
      if slot.Err? {
        return Err(slot.error);
      }
      var profile := sounds[slot.value];
      temp := new Scratch();
      var key := CacheKey(KeyOf(sound), frequency, duration);
      if key in cache {
        return Ok(cache[key]);
      }
      var out := RenderFile(profile, frequency, duration, coin);
      Remember(key, out);
      r := Ok(out);
    }

    /** Stores a freshly rendered file under its key. */
    method Remember(key: CacheKey, file: seq<byte>)
      requires Valid() && RenderedAt(file, sampleRate)
      modifies this
      ensures Valid() && cache == old(cache)[key := file]
      ensures sampleRate == old(sampleRate) && volume == old(volume) && sounds == old(sounds) && mods == old(mods)
      ensures temp == old(temp)
    {
      cache := cache[key := file];
    }

    /** The render branch of `generateFrequency`, on the fresh scratch object:
        the loops of the render, then the header in front of the buffer. */
    method RenderFile(profile: Profile, frequency: real, duration: real, coin: nat -> bool) returns (out: seq<byte>)
      requires Audible(profile, floats, sampleRate, volume, frequency, duration) && temp.State() == Fresh
      modifies temp
      ensures out == Output(profile, floats, sampleRate, volume, frequency, duration, coin)
      ensures temp.State() == AfterRender(profile, floats, sampleRate, volume, frequency, duration, coin)
    {
      var e := EnvelopeOf(profile, floats, sampleRate, volume, frequency, duration);
      FreshIsReady(sampleRate as real / frequency);
      var data := Render.Render(profile.voice, temp, e, frequency, coin, floats);
      out := Header(sampleRate, channels, bitsPerSample, data.Length) + data[..];
    }

    /** `generate(sound, note, octave, duration)`: an unknown note fails before
        anything changes; otherwise the note's frequency is generated. */
    method Generate(sound: SoundRef, note: string, coin: nat -> bool, octave: int := 0, duration: real := 2.0)
      returns (r: Result<seq<byte>, Error>)
      requires Valid() && (note in Notes ==> Playable(sound, Frequency(note, octave), duration))
      modifies this
      ensures Valid()
      ensures sampleRate == old(sampleRate) && volume == old(volume) && sounds == old(sounds) && mods == old(mods)
      ensures note !in Notes ==> r == Err(InvalidNote(note)) && cache == old(cache)
      ensures r.Err? ==> temp == old(temp)
      ensures note in Notes ==>
        var f := Frequency(note, octave);
        r == Respond(sounds, old(cache), floats, sampleRate, volume, sound, f, duration, coin) &&
        cache == if r.Ok? && CacheKey(KeyOf(sound), f, duration) !in old(cache)
                 then old(cache)[CacheKey(KeyOf(sound), f, duration) := r.value] else old(cache)
      ensures note in Notes && r.Ok? ==>
        var f := Frequency(note, octave);
        fresh(temp) && temp.State() ==
          if CacheKey(KeyOf(sound), f, duration) in old(cache) then Fresh
          else AfterRender(sounds[Resolve(sounds, sound).value], floats, sampleRate, volume, f, duration, coin)
    {
      if note !in Notes {
        return Err(InvalidNote(note));
      }
      r := GenerateFrequency(sound, Frequency(note, octave), duration, coin);
    }
  }
}
