/** The render loops of `generateFrequency`: a zero-filled byte buffer of
    `ceil(2 * sampleRate * duration)` bytes, an attack loop over samples
    [0, attackLen) with a linear fade-in, and a decay loop over
    [attackLen, decayLen) with the dampening curve. Each sample is stored as two
    little-endian bytes of its truncated value, wrapping on overflow. */
module Render {
  import opened Bits
  import opened Profiles
  import opened Acoustic

  /** The per-render numbers `generateFrequency` reads from the engine and the
      profile: `_sampleRate`, `_volume`, `attack(...)`, `dampen(...)` and the
      requested duration in seconds. */
  datatype Envelope = Envelope(sampleRate: nat, volume: nat, attack: real, dampen: real, duration: real)

  /** `Math.floor(sampleRate * attack)`: the number of fade-in samples. */
  function AttackLen(e: Envelope): (n: int)
    ensures n as real <= e.sampleRate as real * e.attack < n as real + 1.0
  {
    (e.sampleRate as real * e.attack).Floor
  }

  /** `Math.floor(sampleRate * duration)`: the index at which the decay loop stops. */
  function DecayLen(e: Envelope): (n: int)
    ensures n as real <= e.sampleRate as real * e.duration < n as real + 1.0
    ensures 0.0 <= e.duration ==> 0 <= n
  {
    (e.sampleRate as real * e.duration).Floor
  }

  /** `Math.ceil(sampleRate * duration * 2)`: the length of the byte buffer. */
  function BufferLen(e: Envelope): (n: int)
    ensures n as real - 1.0 < e.sampleRate as real * e.duration * 2.0 <= n as real
  {
    Ceil(e.sampleRate as real * e.duration * 2.0)
  }

  /** The requests whose render loops terminate and stay in the buffer: a
      non-negative duration, and `0 <= attackLen <= decayLen` (both loops count
      up with `!==`, so a larger `attackLen` would never stop the decay loop).
      `decayLen < 2^30` keeps `i << 1` free of 32-bit overflow. */
  predicate Renderable(e: Envelope)
  {
    0.0 <= e.duration && 0 <= AttackLen(e) <= DecayLen(e) < 0x4000_0000
  }

  /** Both loops write only inside the buffer: `2 * decayLen <= ceil(2 * sampleRate * duration)`. */
  lemma BufferHoldsSamples(e: Envelope)
    requires 0.0 <= e.duration
    ensures 0 <= 2 * DecayLen(e) <= BufferLen(e)
  {
    var x := e.sampleRate as real * e.duration;
    assert 0.0 <= x;
    assert e.sampleRate as real * e.duration * 2.0 == 2.0 * x;
  }

  /** The attack amplitude `volume * (i / (sampleRate * attack)) * w`: a linear
      fade-in from 0. */
  function FadeIn(volume: nat, i: nat, sampleRate: nat, attack: real, w: real): (r: real)
    requires sampleRate as real * attack != 0.0
    ensures i == 0 || w == 0.0 || volume == 0 ==> r == 0.0
    ensures i as real == sampleRate as real * attack ==> r == volume as real * w
  {
    volume as real * (i as real / (sampleRate as real * attack)) * w
  }

  /** The decay amplitude `volume * base ** dampen * w` with
      `base = 1 - (i - sampleRate * attack) / (sampleRate * (duration - attack))`. */
  function Decay(volume: nat, i: nat, sampleRate: nat, attack: real, dampen: real, duration: real, pow: (real, real) -> real, w: real): (r: real)
    requires sampleRate as real * (duration - attack) != 0.0
    ensures w == 0.0 || volume == 0 ==> r == 0.0
    ensures i as real == sampleRate as real * attack ==> r == volume as real * pow(1.0, dampen) * w
    ensures i as real == sampleRate as real * duration ==> r == volume as real * pow(0.0, dampen) * w
  {
    var sr := sampleRate as real;
    var base := 1.0 - (i as real - sr * attack) / (sr * (duration - attack));
    assert i as real == sr * attack ==> base == 1.0 by {
      if i as real == sr * attack {
        assert i as real - sr * attack == 0.0;
        assert (i as real - sr * attack) / (sr * (duration - attack)) == 0.0;
      }
    }
    assert i as real == sr * duration ==> base == 0.0 by {
      if i as real == sr * duration {
        assert i as real - sr * attack == sr * (duration - attack);
      }
    }
    volume as real * pow(base, dampen) * w
  }

  /** The amplitude of sample `i` given the value `w` the wave returned for it. */
  function Amplitude(e: Envelope, floats: Floats, i: nat, w: real): (r: real)
    requires Renderable(e) && i < DecayLen(e)
    ensures w == 0.0 || e.volume == 0 ==> r == 0.0
    ensures i == 0 && 0 < AttackLen(e) ==> r == 0.0
  {
    if i < AttackLen(e) then
      FadeIn(e.volume, i, e.sampleRate, e.attack, w)
    else
      DecayDenominator(e, i);
      Decay(e.volume, i, e.sampleRate, e.attack, e.dampen, e.duration, floats.pow, w)
  }

  /** The wave values of samples 0 .. n-1, in call order, and the final scratch
      state: the plucked table run from `s0`, or the stateless oscillator. */
  function Trace(voice: Voice, s0: Lets, sampleRate: nat, frequency: real, coin: nat -> bool, floats: Floats, n: nat)
    : (r: (Lets, seq<real>))
    requires 0.0 < frequency
    requires voice.Plucked? ==> Ready(s0, sampleRate as real / frequency)
    ensures |r.1| == n
    ensures voice.Plucked? ==> Ready(r.0, sampleRate as real / frequency)
  {
    match voice
    case Plucked => Run(s0, sampleRate as real / frequency, coin, n)
    case Oscillator(id) => (s0, seq(n, i requires 0 <= i => floats.wave(id, i, sampleRate, frequency)))
  }

  /** The byte `k` of the rendered buffer, given the wave values `w` of samples
      0 .. |w|-1: the low or high byte of sample `k / 2`, or 0 past the written
      samples. */
  function PcmByte(e: Envelope, floats: Floats, w: seq<real>, k: nat): byte
    requires Renderable(e) && |w| <= DecayLen(e)
  {
    if k < 2 * |w| then Pack(0, Trunc(Amplitude(e, floats, k / 2, w[k / 2])))[k % 2] else 0
  }

  /** The whole rendered buffer for the wave values `w` of samples 0 .. decayLen-1. */
  function Pcm(e: Envelope, floats: Floats, w: seq<real>): (b: seq<byte>)
    requires Renderable(e) && |w| == DecayLen(e)
    ensures |b| == BufferLen(e)
  {
    BufferHoldsSamples(e);
    seq(BufferLen(e), k requires 0 <= k => PcmByte(e, floats, w, k))
  }

  /** One wave call for sample `i`: the acoustic profile updates the scratch
      object, any other profile leaves it alone. */
  method WaveAt(voice: Voice, scratch: Scratch, i: nat, sampleRate: nat, frequency: real, coin: nat -> bool, floats: Floats)
    returns (x: real)
    requires 0.0 < frequency
    requires voice.Plucked? ==> Ready(scratch.State(), sampleRate as real / frequency)
    modifies scratch
    ensures voice.Plucked? ==>
      (scratch.State(), x) == Step(old(scratch.State()), sampleRate as real / frequency, coin(i))
    ensures voice.Oscillator? ==> x == floats.wave(voice.id, i, sampleRate, frequency) && scratch.State() == old(scratch.State())
  {
    if voice.Plucked? {
      x := scratch.Wave(sampleRate, frequency, coin(i));
    } else {
      x := floats.wave(voice.id, i, sampleRate, frequency);
    }
  }

  /** The two render loops of `generateFrequency`. The buffer is fresh and
      zero-filled; the attack loop writes samples [0, attackLen), the decay loop
      samples [attackLen, decayLen). The result is the buffer `Pcm` describes for
      the wave values the profile returns in call order, and the scratch object
      ends in the state those calls leave it in. */
  method Render(voice: Voice, scratch: Scratch, e: Envelope, frequency: real, coin: nat -> bool, floats: Floats)
    returns (data: array<byte>)
    requires Renderable(e) && 0.0 < frequency
    requires voice.Plucked? ==> Ready(scratch.State(), e.sampleRate as real / frequency)
    modifies scratch
    ensures fresh(data)
    ensures var r := Trace(voice, old(scratch.State()), e.sampleRate, frequency, coin, floats, DecayLen(e));
      data[..] == Pcm(e, floats, r.1) && scratch.State() == r.0
  {
    var attackLen := (e.sampleRate as real * e.attack).Floor;
    var decayLen := (e.sampleRate as real * e.duration).Floor;
    assert attackLen == AttackLen(e) && decayLen == DecayLen(e);
    BufferHoldsSamples(e);
    data := new byte[Ceil(e.sampleRate as real * e.duration * 2.0)](_ => 0);
    ghost var s0 := scratch.State();
    ghost var w: seq<real> := [];

    var i := 0;
    while i != attackLen
      invariant 0 <= i <= attackLen && |w| == i
      invariant (scratch.State(), w) == Trace(voice, s0, e.sampleRate, frequency, coin, floats, i)
      invariant forall k :: 0 <= k < data.Length ==> data[k] == PcmByte(e, floats, w, k)
      decreases attackLen - i
    {
      w := AttackSample(voice, scratch, e, frequency, coin, floats, data, s0, w, i);
      i := i + 1;
    }

    i := attackLen;
    while i != decayLen
      invariant attackLen <= i <= decayLen && |w| == i
      invariant (scratch.State(), w) == Trace(voice, s0, e.sampleRate, frequency, coin, floats, i)
      invariant forall k :: 0 <= k < data.Length ==> data[k] == PcmByte(e, floats, w, k)
      decreases decayLen - i
    {
      w := DecaySample(voice, scratch, e, frequency, coin, floats, data, s0, w, i);
      i := i + 1;
    }
    Complete(e, floats, w, data[..]);
  }

  /** A buffer holding, at every index, the byte `PcmByte` gives for all
      `decayLen` wave values is the buffer `Pcm` describes. */
  lemma Complete(e: Envelope, floats: Floats, w: seq<real>, b: seq<byte>)
    requires Renderable(e) && |w| == DecayLen(e) && |b| == BufferLen(e)
    requires forall k :: 0 <= k < |b| ==> b[k] == PcmByte(e, floats, w, k)
    ensures b == Pcm(e, floats, w)
  {
  }

  /** The body of the attack loop for sample `i`:
      `val = volume * (i / (sampleRate * attack)) * wave(i)`, stored as two bytes. */
  method AttackSample(voice: Voice, scratch: Scratch, e: Envelope, frequency: real, coin: nat -> bool, floats: Floats,
                      data: array<byte>, ghost s0: Lets, ghost w: seq<real>, i: nat)
    returns (ghost w': seq<real>)
    requires Renderable(e) && 0.0 < frequency && i == |w| < AttackLen(e)
    requires voice.Plucked? ==> Ready(s0, e.sampleRate as real / frequency)
    requires 2 * DecayLen(e) <= data.Length
    requires (scratch.State(), w) == Trace(voice, s0, e.sampleRate, frequency, coin, floats, i)
    requires forall k :: 0 <= k < data.Length ==> data[k] == PcmByte(e, floats, w, k)
    modifies scratch, data
    ensures |w'| == i + 1
    ensures (scratch.State(), w') == Trace(voice, s0, e.sampleRate, frequency, coin, floats, i + 1)
    ensures forall k :: 0 <= k < data.Length ==> data[k] == PcmByte(e, floats, w', k)
  {
    var sampleRate, volume, attack := e.sampleRate, e.volume, e.attack;
    TraceStep(voice, s0, sampleRate, frequency, coin, floats, i);
    var x := WaveAt(voice, scratch, i, sampleRate, frequency, coin, floats);
    var val := FadeIn(volume, i, sampleRate, attack, x);
    w' := Written(voice, scratch, e, frequency, coin, floats, data, s0, w, i, x, val);
  }

  /** The body of the decay loop for sample `i`:
      `val = volume * base ** dampen * wave(i)`, stored as two bytes. */
  method DecaySample(voice: Voice, scratch: Scratch, e: Envelope, frequency: real, coin: nat -> bool, floats: Floats,
                     data: array<byte>, ghost s0: Lets, ghost w: seq<real>, i: nat)
    returns (ghost w': seq<real>)
    requires Renderable(e) && 0.0 < frequency && AttackLen(e) <= i == |w| < DecayLen(e)
    requires voice.Plucked? ==> Ready(s0, e.sampleRate as real / frequency)
    requires 2 * DecayLen(e) <= data.Length
    requires (scratch.State(), w) == Trace(voice, s0, e.sampleRate, frequency, coin, floats, i)
    requires forall k :: 0 <= k < data.Length ==> data[k] == PcmByte(e, floats, w, k)
    modifies scratch, data
    ensures |w'| == i + 1
    ensures (scratch.State(), w') == Trace(voice, s0, e.sampleRate, frequency, coin, floats, i + 1)
    ensures forall k :: 0 <= k < data.Length ==> data[k] == PcmByte(e, floats, w', k)
  {
    var sampleRate, volume, attack, duration := e.sampleRate, e.volume, e.attack, e.duration;
    DecayDenominator(e, i);
    TraceStep(voice, s0, sampleRate, frequency, coin, floats, i);
    var x := WaveAt(voice, scratch, i, sampleRate, frequency, coin, floats);
    var val := Decay(volume, i, sampleRate, attack, e.dampen, duration, floats.pow, x);
    w' := Written(voice, scratch, e, frequency, coin, floats, data, s0, w, i, x, val);
  }

  /** Stores the bytes of sample `|w|`, whose wave call returned `x` and whose
      amplitude is `val`, and extends the trace by `x`. */
  method Written(voice: Voice, scratch: Scratch, e: Envelope, frequency: real, coin: nat -> bool, floats: Floats,
                 data: array<byte>, ghost s0: Lets, ghost w: seq<real>, i: nat, ghost x: real, val: real)
    returns (ghost w': seq<real>)
    requires Renderable(e) && 0.0 < frequency && i == |w| < DecayLen(e)
    requires voice.Plucked? ==> Ready(s0, e.sampleRate as real / frequency)
    requires val == Amplitude(e, floats, |w|, x)
    requires 2 * DecayLen(e) <= data.Length
    requires var before := Trace(voice, s0, e.sampleRate, frequency, coin, floats, |w|);
      w == before.1 &&
      (voice.Plucked? ==> (scratch.State(), x) == Step(before.0, e.sampleRate as real / frequency, coin(|w|))) &&
      (voice.Oscillator? ==> scratch.State() == before.0 && x == floats.wave(voice.id, |w|, e.sampleRate, frequency))
    requires forall k :: 0 <= k < data.Length ==> data[k] == PcmByte(e, floats, w, k)
    modifies data
    ensures w' == w + [x]
    ensures (scratch.State(), w') == Trace(voice, s0, e.sampleRate, frequency, coin, floats, |w'|)
    ensures forall k :: 0 <= k < data.Length ==> data[k] == PcmByte(e, floats, w', k)
  {
    PutSample(data, i, val);
    TraceStep(voice, s0, e.sampleRate, frequency, coin, floats, i);
    WrittenSample(e, floats, w, x, data);
    w' := w + [x];
  }

  /** Inside the decay loop `sampleRate * (duration - attack)` is positive. */
  lemma DecayDenominator(e: Envelope, i: int)
    requires Renderable(e) && AttackLen(e) <= i < DecayLen(e)
    ensures 0.0 < e.sampleRate as real * (e.duration - e.attack)
  {
    var sr := e.sampleRate as real;
    var a, d := sr * e.attack, sr * e.duration;
    assert a < (AttackLen(e) + 1) as real;
    assert (AttackLen(e) + 1) as real <= DecayLen(e) as real <= d;
    assert 0.0 < d - a;
    assert sr * (e.duration - e.attack) == d - a;
    assert 0.0 < e.sampleRate as real * (e.duration - e.attack);
  }

  /** `data[i << 1] = val; data[(i << 1) + 1] = val >> 8;` for `i < 2^30`. */
  method PutSample(data: array<byte>, i: nat, val: real)
    requires 2 * i + 1 < data.Length
    modifies data
    ensures forall k :: 0 <= k < data.Length ==>
      data[k] == if k / 2 == i then Pack(0, Trunc(val))[k % 2] else old(data[k])
  {
    data[2 * i] := ToUint8(Trunc(val));
    data[2 * i + 1] := ToUint8(Shr8(Trunc(val)));
  }

  /** After the bytes of sample `|w|` are stored, the buffer holds the bytes of
      the wave values `w + [x]`. */
  lemma WrittenSample(e: Envelope, floats: Floats, w: seq<real>, x: real, data: array<byte>)
    requires Renderable(e) && |w| < DecayLen(e)
    requires forall k :: 0 <= k < data.Length ==>
      data[k] == if k / 2 == |w| then Pack(0, Trunc(Amplitude(e, floats, |w|, x)))[k % 2] else PcmByte(e, floats, w, k)
    ensures forall k :: 0 <= k < data.Length ==> data[k] == PcmByte(e, floats, w + [x], k)
  {
    forall k | 0 <= k < data.Length
      ensures data[k] == PcmByte(e, floats, w + [x], k)
    {
      if k < 2 * |w| {
        assert (w + [x])[k / 2] == w[k / 2];
      }
    }
  }

  /** One more call extends the trace by one value. */
  lemma TraceStep(voice: Voice, s0: Lets, sampleRate: nat, frequency: real, coin: nat -> bool, floats: Floats, n: nat)
    requires 0.0 < frequency
    requires voice.Plucked? ==> Ready(s0, sampleRate as real / frequency)
    ensures var before := Trace(voice, s0, sampleRate, frequency, coin, floats, n);
      var after := Trace(voice, s0, sampleRate, frequency, coin, floats, n + 1);
      after.1 == before.1 + [after.1[n]] &&
      (voice.Plucked? ==> (after.0, after.1[n]) == Step(before.0, sampleRate as real / frequency, coin(n))) &&
      (voice.Oscillator? ==> after.0 == before.0 && after.1[n] == floats.wave(voice.id, n, sampleRate, frequency))
  {
    if voice.Oscillator? {
      var before := Trace(voice, s0, sampleRate, frequency, coin, floats, n);
      var after := Trace(voice, s0, sampleRate, frequency, coin, floats, n + 1);
      assert after.1 == before.1 + [after.1[n]];
    }
  }

  /** The buffer has `ceil(2 * sampleRate * duration)` bytes, and every byte at or
      past `2 * decayLen` keeps the 0 it was allocated with. */
  lemma SilentTail(e: Envelope, floats: Floats, w: seq<real>)
    requires Renderable(e) && |w| == DecayLen(e)
    ensures |Pcm(e, floats, w)| == BufferLen(e)
    ensures forall k :: 2 * DecayLen(e) <= k < BufferLen(e) ==> Pcm(e, floats, w)[k] == 0
  {
  }

  /** When the attack loop runs at all, sample 0 is silent: its fade-in factor
      `0 / (sampleRate * attack)` is 0, whatever the wave returned. */
  lemma FirstSampleSilent(e: Envelope, floats: Floats, w: seq<real>)
    requires Renderable(e) && |w| == DecayLen(e) && 1 <= AttackLen(e)
    ensures Pcm(e, floats, w)[0] == 0 && Pcm(e, floats, w)[1] == 0
  {
    BufferHoldsSamples(e);
    assert Amplitude(e, floats, 0, w[0]) == 0.0;
    assert Pack(0, 0) == [0, 0];
  }

  /** Each written sample reads back, as a 16-bit little-endian two's-complement
      value, as its truncated amplitude wrapped into [-2^15, 2^15): there is no
      clamping, and amplitudes already in range come back exactly. */
  lemma SampleDecodes(e: Envelope, floats: Floats, w: seq<real>, i: nat)
    requires Renderable(e) && |w| == DecayLen(e) && i < DecayLen(e)
    ensures 2 * i + 2 <= |Pcm(e, floats, w)|
    ensures var v := Trunc(Amplitude(e, floats, i, w[i]));
      Signed16(Le16(Pcm(e, floats, w), 2 * i)) == v - TwoTo16 * ((v + 0x8000) / TwoTo16) &&
      (-0x8000 <= v < 0x8000 ==> Signed16(Le16(Pcm(e, floats, w), 2 * i)) == v)
  {
    BufferHoldsSamples(e);
    var v := Trunc(Amplitude(e, floats, i, w[i]));
    var b := Pcm(e, floats, w);
    assert b[2 * i] == Pack(0, v)[0] && b[2 * i + 1] == Pack(0, v)[1];
    assert Le16(b, 2 * i) == Le16(Pack(0, v), 0);
    SampleWrap(v);
  }

  /** An oscillator voice ignores the random bits and the scratch state: its
      trace is the same for any two choices of them. */
  lemma OscillatorIgnoresCoin(id: nat, s0: Lets, s1: Lets, sampleRate: nat, frequency: real,
                              coin0: nat -> bool, coin1: nat -> bool, floats: Floats, n: nat)
    requires 0.0 < frequency
    ensures Trace(Oscillator(id), s0, sampleRate, frequency, coin0, floats, n).1 ==
            Trace(Oscillator(id), s1, sampleRate, frequency, coin1, floats, n).1
  {
  }
}
