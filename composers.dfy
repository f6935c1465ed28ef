/** streamers/composers: the `TransitionLoop` combinator
    (transition_funcs.go), the linear gain effect (effect_funcs.go) and the
    package's own `NewEffectLoop` (effect_loop.go, whose `Stream` is the
    same code as streamers/effect_loop.go and is modelled once, by
    `EffectLoops.EffectLoop`). */
module Composers {
  import opened Graphs
  import EffectLoops

  /** `TransitionLoop(f)`: runs `f` up from 0 to 1 over the first half of
      the period and back down over the second. */
  function TransitionLoop(f: TransitionFunc): (g: TransitionFunc)
    ensures g(0.0) == f(0.0) && g(0.5) == f(1.0) && g(1.0) == f(0.0)
  {
    p => if p <= 0.5 then f(p * 2.0) else f((1.0 - p) * 2.0)
  }

  /** The combinator feeds `f` exactly the ping-pong ramp of the streamers
      package's own `TransitionLoop`, which therefore is the combinator
      applied to the identity. */
  lemma TransitionLoopRamp(f: TransitionFunc, p: real)
    ensures TransitionLoop(f)(p) == f(EffectLoops.TransitionLoop(p))
    ensures TransitionLoop(x => x)(p) == EffectLoops.TransitionLoop(p)
  {
  }

  /** The ends and the middle of the period, the symmetry of the loop and
      the range of what `f` is given. */
  lemma TransitionLoopShape(f: TransitionFunc, p: real)
    ensures TransitionLoop(f)(0.0) == f(0.0)
    ensures TransitionLoop(f)(0.5) == f(1.0)
    ensures TransitionLoop(f)(1.0) == f(0.0)
    ensures 0.0 <= p <= 1.0 ==> TransitionLoop(f)(p) == TransitionLoop(f)(1.0 - p)
    ensures 0.0 <= p <= 1.0 ==> 0.0 <= EffectLoops.TransitionLoop(p) <= 1.0
  {
    EffectLoops.TransitionLoopShape(p);
  }

  /** Both channels of a sample scaled by one gain. */
  function Scale(l: real, r: real, gain: real): Sample
  {
    Sample(l * gain, r * gain)
  }

  /** `GainTransitionEffect`: both channels scaled by the gain that runs
      linearly from `startGain` at progress 0 to `endGain` at progress 1. */
  function GainTransitionEffect(startGain: real, endGain: real): (e: EffectFunc)
    ensures forall l, r :: e(l, r, 0.0) == Scale(l, r, startGain)
    ensures forall l, r :: e(l, r, 1.0) == Scale(l, r, endGain)
  {
    (l, r, progress) => Scale(l, r, startGain + (endGain - startGain) * progress)
  }

  /** The gain effect applied to one sample. */
  lemma GainTransitionEffectAt(startGain: real, endGain: real, l: real, r: real, p: real)
    ensures GainTransitionEffect(startGain, endGain)(l, r, p) == Scale(l, r, startGain + (endGain - startGain) * p)
  {
  }

  /** The gain effect at its ends, its one gain for both channels, its
      constant gain when the ends agree, and silence kept silent. */
  lemma GainTransitionEffectShape(startGain: real, endGain: real, l: real, r: real, p: real)
    ensures GainTransitionEffect(startGain, endGain)(l, r, 0.0) == Sample(l * startGain, r * startGain)
    ensures GainTransitionEffect(startGain, endGain)(l, r, 1.0) == Sample(l * endGain, r * endGain)
    ensures GainTransitionEffect(startGain, endGain)(l, l, p).left == GainTransitionEffect(startGain, endGain)(l, l, p).right
    ensures startGain == endGain ==> GainTransitionEffect(startGain, endGain)(l, r, p) == Sample(l * startGain, r * startGain)
    ensures GainTransitionEffect(startGain, endGain)(0.0, 0.0, p) == Sample(0.0, 0.0)
  {
    GainTransitionEffectAt(startGain, endGain, l, r, 0.0);
    GainTransitionEffectAt(startGain, endGain, l, r, 1.0);
    GainTransitionEffectAt(startGain, endGain, l, l, p);
    GainTransitionEffectAt(startGain, endGain, l, r, p);
    GainTransitionEffectAt(startGain, endGain, 0.0, 0.0, p);
    assert startGain + (endGain - startGain) * 0.0 == startGain;
    assert startGain + (endGain - startGain) * 1.0 == endGain;
  }

  /** composers' `NewEffectLoop`: a loop at position 0 over the given
      streamer, length, transition and effect. */
  method NewEffectLoop(inner: Graph, length: int, transition: TransitionFunc, effect: EffectFunc)
    returns (e: EffectLoops.EffectLoop)
    ensures fresh(e) && e.pos == 0 && e.Valid()
    ensures e.inner == inner && e.length == length && e.transition == transition && e.effect == effect
  {
    e := new EffectLoops.EffectLoop(inner, length, transition, effect);
  }
}
