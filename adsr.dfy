/** streamers/adsr_envelope.go: the attack-decay-sustain envelope is a
    non-looping effect chain of two linear gain stages, attack (0 to 1) and
    decay (1 to the sustain level), which then holds the sustain level for
    good; the release is a one-stage chain from the sustain level to 0.
    beep's `effects.TransitionLinear` is foreign code and is passed in as
    `linear`. The lemmas play the chains with `EffectChains.Run` and
    `EffectChains.Output`, the specification `EffectChains.EffectsChain`
    streams to. */
module Envelopes {
  import opened Graphs
  import opened EffectChains
  import Tremolos

  /** `attackFunc`: gain from 0 to 1. */
  function AttackFunc(): (e: EffectFunc)
    ensures forall l, r :: e(l, r, 0.0) == Sample(0.0, 0.0)
    ensures forall l, r :: e(l, r, 1.0) == Sample(l, r)
  {
    Tremolos.TransitionEffectFunc(0.0, 1.0)
  }

  /** `decayFunc`: gain from 1 to the sustain level. */
  function DecayFunc(sustain: real): (e: EffectFunc)
    ensures forall l, r :: e(l, r, 0.0) == Sample(l, r)
    ensures forall l, r :: e(l, r, 1.0) == Sample(l * sustain, r * sustain)
  {
    Tremolos.TransitionEffectFunc(1.0, sustain)
  }

  /** `releaseFunc`: gain from the sustain level to 0. */
  function ReleaseFunc(sustain: real): (e: EffectFunc)
    ensures forall l, r :: e(l, r, 0.0) == Sample(l * sustain, r * sustain)
    ensures forall l, r :: e(l, r, 1.0) == Sample(0.0, 0.0)
  {
    Tremolos.TransitionEffectFunc(sustain, 0.0)
  }

  /** The three envelope effects applied to one sample. */
  lemma EnvelopeFuncsAt(sustain: real, l: real, r: real, p: real)
    ensures AttackFunc()(l, r, p) == Sample(l * p, r * p)
    ensures DecayFunc(sustain)(l, r, p) == Sample(l * (1.0 + (sustain - 1.0) * p), r * (1.0 + (sustain - 1.0) * p))
    ensures ReleaseFunc(sustain)(l, r, p) == Sample(l * (sustain - sustain * p), r * (sustain - sustain * p))
  {
    Tremolos.TransitionEffectFuncAt(0.0, 1.0, l, r, p);
    Tremolos.TransitionEffectFuncAt(1.0, sustain, l, r, p);
    Tremolos.TransitionEffectFuncAt(sustain, 0.0, l, r, p);
  }

  /** The two stages of the attack-decay-sustain chain. */
  function AttackDecayStages(attack: int, decay: int, sustain: real, linear: TransitionFunc): seq<EffectArgs>
  {
    [EffectArgs(attack, linear, AttackFunc()), EffectArgs(decay, linear, DecayFunc(sustain))]
  }

  /** `SetAttackDecaySustain`: the streamer itself when the envelope is
      neutral (no attack, no decay, full sustain), else the streamer
      wrapped in the non-looping chain of the attack and decay stages. */
  function SetAttackDecaySustain(streamer: Graph, attack: int, decay: int, sustain: real,
                                 linear: TransitionFunc): (g: Graph)
    ensures g == streamer <==> attack == 0 && decay == 0 && sustain == 1.0
    ensures g != streamer ==> g.EffectsChain? && g.inner == streamer && !g.loop && |g.stages| == 2
    ensures g != streamer ==> g.stages[0].length == attack && g.stages[1].length == decay
    ensures g != streamer ==> g.stages[0].transition == linear && g.stages[1].transition == linear
  {
    if attack == 0 && decay == 0 && sustain == 1.0 then streamer
    else EffectsChain(streamer, AttackDecayStages(attack, decay, sustain, linear), false)
  }

  /** `SetRelease`: the silence streamer when there is no release (the
      input is dropped), else the streamer wrapped in the one-stage
      non-looping chain from the sustain level down to 0. */
  function SetRelease(streamer: Graph, sustain: real, release: int, linear: TransitionFunc): (g: Graph)
    ensures g == Silence <==> release == 0
    ensures release != 0 ==> g.EffectsChain? && g.inner == streamer && !g.loop && |g.stages| == 1
    ensures release != 0 ==> g.stages[0].length == release && g.stages[0].transition == linear
  {
    if release == 0 then Silence
    else EffectsChain(streamer, [EffectArgs(release, linear, ReleaseFunc(sustain))], false)
  }

  /** A two-stage non-looping chain started at rest reaches the start of
      its second stage one sample after the end of the first. */
  lemma TwoStageSwitch(st: seq<EffectArgs>)
    requires |st| == 2 && st[0].length > 0 && st[1].length > 0
    ensures Playable(st)
    ensures Run(st, false, Cursor(0, 0, false), st[0].length + 1) == Cursor(1, 1, false)
  {
    var c0 := Cursor(0, 0, false);
    RunInStage(st, false, c0, st[0].length);
    StepStageEnd(st, false, Cursor(st[0].length, 0, false));
    RunNext(st, false, c0, st[0].length, Cursor(st[0].length, 0, false));
  }

  /** ... and comes to rest on the second stage one sample after the end
      of both. */
  lemma TwoStageRest(st: seq<EffectArgs>)
    requires |st| == 2 && st[0].length > 0 && st[1].length > 0
    ensures Playable(st)
    ensures Run(st, false, Cursor(0, 0, false), st[0].length + st[1].length + 1) == Cursor(st[1].length + 1, 1, true)
  {
    var a, d := st[0].length, st[1].length;
    var c0, c1 := Cursor(0, 0, false), Cursor(1, 1, false);
    TwoStageSwitch(st);
    RunInStage(st, false, c1, d - 1);
    RunFrom(st, false, c0, a + 1, c1, d - 1);
    StepStageEnd(st, false, Cursor(d, 1, false));
    RunNext(st, false, c0, a + d, Cursor(d, 1, false));
  }

  /** Where a two-stage non-looping chain started at rest is after `k`
      samples: `k` into the first stage for its `length` samples, then
      into the second stage, then at rest on the second stage from one
      sample past the end of both. */
  lemma TwoStageRun(st: seq<EffectArgs>, k: nat)
    requires |st| == 2 && st[0].length > 0 && st[1].length > 0
    ensures Playable(st)
    ensures var a, d := st[0].length, st[1].length;
      (k <= a ==> Run(st, false, Cursor(0, 0, false), k) == Cursor(k, 0, false)) &&
      (a < k <= a + d ==> Run(st, false, Cursor(0, 0, false), k) == Cursor(k - a, 1, false)) &&
      (a + d < k ==> Run(st, false, Cursor(0, 0, false), k) == Cursor(d + 1, 1, true))
  {
    var a, d := st[0].length, st[1].length;
    var c0 := Cursor(0, 0, false);
    if k <= a {
      RunInStage(st, false, c0, k);
    } else if k <= a + d {
      TwoStageSwitch(st);
      RunInStage(st, false, Cursor(1, 1, false), k - (a + 1));
      RunFrom(st, false, c0, a + 1, Cursor(1, 1, false), k - (a + 1));
    } else {
      var c2 := Cursor(d + 1, 1, true);
      TwoStageRest(st);
      RunFrozen(st, false, c2, k - (a + d + 1));
      RunFrom(st, false, c0, a + d + 1, c2, k - (a + d + 1));
    }
  }

  /** The sustain phase: from sample `attack + decay + 1` on, every sample
      of the attack-decay-sustain envelope is the input scaled by the
      sustain level. */
  lemma SustainHolds(streamer: Graph, attack: int, decay: int, sustain: real, linear: TransitionFunc,
                     k: nat, s: Sample)
    requires attack > 0 && decay > 0 && attack + decay < k
    ensures var g := SetAttackDecaySustain(streamer, attack, decay, sustain, linear);
      Playable(g.stages) &&
      Output(g.stages, g.loop, Run(g.stages, g.loop, Cursor(0, 0, false), k), s)
        == Sample(s.left * sustain, s.right * sustain)
  {
    var st := AttackDecayStages(attack, decay, sustain, linear);
    TwoStageRun(st, k);
    var c := Run(st, false, Cursor(0, 0, false), k);
    OutputAtRest(st, false, c, s);
    assert st[1].effect == DecayFunc(sustain);
  }

  /** The attack phase: sample `k` of the first `attack` is the input
      scaled by the linear curve at (k + 1) / attack. */
  lemma AttackRamps(streamer: Graph, attack: int, decay: int, sustain: real, linear: TransitionFunc,
                    k: nat, s: Sample)
    requires attack > 0 && decay > 0 && k < attack
    ensures var g := SetAttackDecaySustain(streamer, attack, decay, sustain, linear);
      var p := linear((k + 1) as real / attack as real);
      Playable(g.stages) &&
      Output(g.stages, g.loop, Run(g.stages, g.loop, Cursor(0, 0, false), k), s) == Sample(s.left * p, s.right * p)
  {
    var st := AttackDecayStages(attack, decay, sustain, linear);
    assert Playable(st);
    RunInStage(st, false, Cursor(0, 0, false), k);
    var c := Run(st, false, Cursor(0, 0, false), k);
    OutputInStage(st, false, c, s);
    assert st[0].effect == AttackFunc() && st[0].transition == linear && st[0].length == attack;
    var p := linear((k + 1) as real / attack as real);
    Tremolos.TransitionEffectFuncAt(0.0, 1.0, s.left, s.right, p);
  }

  /** A one-stage non-looping chain started at rest is at rest from one
      sample past the end of its stage on. */
  lemma OneStageRest(st: seq<EffectArgs>, k: nat)
    requires |st| == 1 && 0 < st[0].length < k
    ensures Playable(st)
    ensures Run(st, false, Cursor(0, 0, false), k) == Cursor(st[0].length + 1, 0, true)
  {
    var c0, c1 := Cursor(0, 0, false), Cursor(st[0].length + 1, 0, true);
    RunInStage(st, false, c0, st[0].length);
    StepStageEnd(st, false, Cursor(st[0].length, 0, false));
    RunNext(st, false, c0, st[0].length, Cursor(st[0].length, 0, false));
    RunFrozen(st, false, c1, k - (st[0].length + 1));
    RunFrom(st, false, c0, st[0].length + 1, c1, k - (st[0].length + 1));
  }

  /** The release: after `release + 1` samples a released note is silent
      for good. */
  lemma ReleaseSilences(streamer: Graph, sustain: real, release: int, linear: TransitionFunc,
                        k: nat, s: Sample)
    requires release > 0 && release < k
    ensures var g := SetRelease(streamer, sustain, release, linear);
      Playable(g.stages) &&
      Output(g.stages, g.loop, Run(g.stages, g.loop, Cursor(0, 0, false), k), s) == Sample(0.0, 0.0)
  {
    var st := [EffectArgs(release, linear, ReleaseFunc(sustain))];
    OneStageRest(st, k);
    var c := Run(st, false, Cursor(0, 0, false), k);
    OutputAtRest(st, false, c, s);
    assert st[0].effect == ReleaseFunc(sustain);
    EnvelopeFuncsAt(sustain, s.left, s.right, 1.0);
  }
}
