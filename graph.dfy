/** The streamer trees that the streamers package assembles out of beep
    streamers and its own wrappers. A tree is described by what each
    constructor is given (the wrapped streamer and the arguments), not by
    the samples it would produce: beep's generators, `effects.Pan`,
    `effects.Gain`, `beep.Mixer` and `generators.Silence` are foreign code,
    so they are leaves or inner nodes here. The effect loop and effect chain
    nodes carry the closures they are built with, as the Go values do. */
module Graphs {

  /** A stereo sample, `[2]float64`: index 0 is the left channel, 1 the
      right. */
  datatype Sample = Sample(left: real, right: real)

  /** `EffectFunc`: rewrites one stereo sample at a given progress. */
  type EffectFunc = (real, real, real) -> Sample

  /** `effects.TransitionFunc`: shapes a progress value. */
  type TransitionFunc = real -> real

  /** The five beep tone generators behind the known waveforms. */
  datatype ToneKind = SineTone | TriangleTone | SquareTone | SawtoothTone | SawtoothToneReversed

  /** `effectArgs`: one stage of an effect chain. */
  datatype EffectArgs = EffectArgs(length: int, transition: TransitionFunc, effect: EffectFunc)

  /** One input of a mixer, entering `delay` nanoseconds after the mixer is
      built (the arpeggio timer), 0 for at once. */
  datatype Voice = Voice(delay: int, graph: Graph)

  datatype Graph =
    | Tone(kind: ToneKind, sampleRate: int, hz: real)
    | Pan(inner: Graph, pan: real)
    | Gain(inner: Graph, gain: real)
    | EffectLoop(inner: Graph, length: int, transition: TransitionFunc, effect: EffectFunc)
    | EffectsChain(inner: Graph, stages: seq<EffectArgs>, loop: bool)
    | Mixer(voices: seq<Voice>)
    | Silence
}
