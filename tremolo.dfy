/** streamers/tremolo.go: a tremolo is an effect loop whose effect moves
    the gain linearly between two values, either pulsing (beep's
    equal-power curve once per period) or swinging there and back (the
    ping-pong `TransitionLoop` over a doubled period). beep's
    `effects.TransitionEqualPower` is foreign code and is passed in as
    `equalPower`. */
module Tremolos {
  import opened Graphs
  import Composers
  import EffectLoops

  /** `TransitionEffectFunc`: both channels scaled by the gain that runs
      linearly from `startGain` at progress 0 to `endGain` at progress 1. */
  function TransitionEffectFunc(startGain: real, endGain: real): (e: EffectFunc)
    ensures forall l, r :: e(l, r, 0.0) == Composers.Scale(l, r, startGain)
    ensures forall l, r :: e(l, r, 1.0) == Composers.Scale(l, r, endGain)
  {
    (l, r, progress) => Composers.Scale(l, r, startGain + (endGain - startGain) * progress)
  }

  /** The effect applied to one sample: the composers package's gain
      effect, which is the same code. */
  lemma TransitionEffectFuncAt(startGain: real, endGain: real, l: real, r: real, p: real)
    ensures TransitionEffectFunc(startGain, endGain)(l, r, p)
         == Sample(l * (startGain + (endGain - startGain) * p), r * (startGain + (endGain - startGain) * p))
    ensures TransitionEffectFunc(startGain, endGain)(l, r, p) == Composers.GainTransitionEffect(startGain, endGain)(l, r, p)
  {
    Composers.GainTransitionEffectAt(startGain, endGain, l, r, p);
  }

  /** Gain `startGain` at progress 0, `endGain` at progress 1, one gain for
      both channels. */
  lemma TransitionEffectFuncEnds(startGain: real, endGain: real, l: real, r: real)
    ensures TransitionEffectFunc(startGain, endGain)(l, r, 0.0) == Sample(l * startGain, r * startGain)
    ensures TransitionEffectFunc(startGain, endGain)(l, r, 1.0) == Sample(l * endGain, r * endGain)
  {
    TransitionEffectFuncAt(startGain, endGain, l, r, 0.0);
    TransitionEffectFuncAt(startGain, endGain, l, r, 1.0);
    assert startGain + (endGain - startGain) * 0.0 == startGain;
    assert startGain + (endGain - startGain) * 1.0 == endGain;
  }

  /** `Tremolo`: an effect loop over `streamer` with the linear gain effect;
      pulsing, the period is `length` on the equal-power curve, otherwise
      it is `2 * length` on the ping-pong curve. */
  function Tremolo(streamer: Graph, length: int, startGain: real, endGain: real, pulsing: bool,
                   equalPower: TransitionFunc): (g: Graph)
    ensures g.EffectLoop? && g.inner == streamer
  {
    var tremoloFunc := TransitionEffectFunc(startGain, endGain);
    if pulsing then EffectLoop(streamer, length, equalPower, tremoloFunc)
    else EffectLoop(streamer, length * 2, EffectLoops.TransitionLoop, tremoloFunc)
  }

  /** The two modes differ only in period and curve: both wrap the given
      streamer with the same gain effect; a pulsing tremolo runs the
      equal-power curve once per `length` samples, a swinging one the
      ping-pong curve over `2 * length`. */
  lemma TremoloModes(streamer: Graph, length: int, startGain: real, endGain: real, equalPower: TransitionFunc)
    ensures var p := Tremolo(streamer, length, startGain, endGain, true, equalPower);
      p.length == length && p.transition == equalPower
    ensures var s := Tremolo(streamer, length, startGain, endGain, false, equalPower);
      s.length == 2 * length && s.transition == EffectLoops.TransitionLoop
    ensures Tremolo(streamer, length, startGain, endGain, true, equalPower).effect
         == Tremolo(streamer, length, startGain, endGain, false, equalPower).effect
         == TransitionEffectFunc(startGain, endGain)
  {
  }

  /** A swinging tremolo, played by its effect loop from position 0, scales
      a sample by `startGain` at the start of each period and by `endGain`
      `length` samples in, half way through: the gain goes there and back
      once per `2 * length` samples. */
  lemma SwingingTremoloPeaks(streamer: Graph, length: int, startGain: real, endGain: real,
                             equalPower: TransitionFunc, l: real, r: real)
    requires length > 0
    ensures var g := Tremolo(streamer, length, startGain, endGain, false, equalPower);
      g.effect(l, r, g.transition(EffectLoops.Progress(0, g.length))) == Sample(l * startGain, r * startGain) &&
      g.effect(l, r, g.transition(EffectLoops.Progress(length, g.length))) == Sample(l * endGain, r * endGain) &&
      g.effect(l, r, g.transition(EffectLoops.Progress(2 * length, g.length))) == Sample(l * startGain, r * startGain)
  {
    var L := (2 * length) as real;
    assert length as real / L == 0.5;
    assert (2 * length) as real / L == 1.0;
    EffectLoops.TransitionLoopShape(0.0);
    TransitionEffectFuncEnds(startGain, endGain, l, r);
  }
}
