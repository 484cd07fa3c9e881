/** Sound profiles: a name, an attack duration, a dampening exponent and a wave.
    The floating-point parts of the profiles (sines, `Math.log`, `**` with a real
    exponent) are not computed here: a `Floats` value stands for them, so that the
    rest of the model can be stated for any of their results. */
module Profiles {

  /** How a profile computes `attack(sampleRate, frequency, volume)` or
      `dampen(sampleRate, frequency, volume)`: a constant, an affine function of the
      frequency (organ's `1 + frequency * 0.01`), or a floating-point expression
      identified by number and evaluated by the `Floats` oracle (piano's
      `(0.5 * Math.log(frequency * volume / sampleRate)) ** 2`). */
  datatype Param = Fixed(value: real) | Affine(offset: real, slope: real) | Computed(id: nat)

  /** The wave of a profile: the stateful plucked-string table of the acoustic
      profile, or a stateless oscillator expression identified by number. */
  datatype Voice = Plucked | Oscillator(id: nat)

  datatype Profile = Profile(name: string, attack: Param, dampen: Param, voice: Voice)

  /** The floating-point results the model does not compute:
      `param(id, sampleRate, frequency, volume)` for a `Computed(id)` parameter,
      `wave(id, i, sampleRate, frequency)` for an `Oscillator(id)` voice and
      `pow(base, exponent)` for the `**` of the decay envelope. */
  datatype Floats = Floats(
    param: (nat, nat, real, nat) -> real,
    wave: (nat, nat, nat, real) -> real,
    pow: (real, real) -> real)

  /** The value a profile's `attack` or `dampen` returns for one render. */
  function Eval(p: Param, floats: Floats, sampleRate: nat, frequency: real, volume: nat): real
  {
    match p
    case Fixed(v) => v
    case Affine(offset, slope) => offset + frequency * slope
    case Computed(id) => floats.param(id, sampleRate, frequency, volume)
  }

  /** Numbers of the oscillator expressions and computed parameters of the
      built-in profiles. */
  const PianoWave: nat := 0
  const OrganWave: nat := 1
  const EdmWave: nat := 2
  const PianoDampen: nat := 0

  /** piano: attack 0.002 s, dampen `(0.5 * ln(frequency * volume / sampleRate))^2`. */
  const Piano: Profile := Profile("piano", Fixed(0.002), Computed(PianoDampen), Oscillator(PianoWave))

  /** organ: attack 0.3 s, dampen `1 + frequency * 0.01`. */
  const Organ: Profile := Profile("organ", Fixed(0.3), Affine(1.0, 0.01), Oscillator(OrganWave))

  /** edm: attack 0.002 s, dampen 1. */
  const Edm: Profile := Profile("edm", Fixed(0.002), Fixed(1.0), Oscillator(EdmWave))
}
