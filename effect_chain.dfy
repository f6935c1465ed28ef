/** streamers/effect_chain.go: a streamer wrapper that runs a list of
    effect stages one after the other, sample by sample, either once (then
    it holds the last stage at full progress for good) or round and round.
    The pure part (`Advance`, `Step`, `Run`, `Output`) says what one sample
    does to the chain's position; the `EffectsChain` class is the builder and
    streamer, proved to follow it. */
module EffectChains {
  import opened Common
  import opened Graphs

  /** The chain's position: `timePos` samples into stage `effectPos`, and
      whether the chain has come to rest on its last stage. */
  datatype Cursor = Cursor(timePos: int, effectPos: int, final: bool)

  /** What `Stream` needs of the stages: at least one (it indexes the
      current stage even for an empty read), none of length 0 (progress
      would be a division by zero). */
  predicate Playable(stages: seq<EffectArgs>)
  {
    |stages| > 0 && forall k :: 0 <= k < |stages| ==> stages[k].length != 0
  }

  predicate OnStage(stages: seq<EffectArgs>, c: Cursor)
  {
    0 <= c.effectPos < |stages|
  }

  /** `nextEffect` on the stage index: the next stage if there is one, else
      back to the first when looping, else no move (and `false`). */
  function Advance(effectPos: int, count: int, loop: bool): (r: (bool, int))
    ensures 0 <= effectPos < count ==> 0 <= r.1 < count
    ensures !r.0 <==> effectPos >= count - 1 && !loop
    ensures !r.0 ==> r.1 == effectPos
    ensures r.0 && effectPos < count - 1 ==> r.1 == effectPos + 1
    ensures r.0 && effectPos >= count - 1 ==> r.1 == 0
  {
    if effectPos < count - 1 then (true, effectPos + 1)
    else if loop then (true, 0)
    else (false, effectPos)
  }

  /** One sample of `Stream`: the new position and the progress handed to
      the effect of the stage the chain is on afterwards. A resting chain
      stays put and uses progress 1 untransformed; otherwise the time
      advances, and a progress past 1 moves to the next stage (restarting
      its time at 1 and keeping the fractional part of the progress) or, on
      the last stage of a chain that does not loop, brings the chain to
      rest at progress 1. */
  function Step(stages: seq<EffectArgs>, loop: bool, c: Cursor): (r: (Cursor, real))
    requires Playable(stages) && OnStage(stages, c)
    ensures OnStage(stages, r.0)
  {
    if c.final then (c, 1.0)
    else
      var t := c.timePos + 1;
      var p := t as real / stages[c.effectPos].length as real;
      if p > 1.0 then
        var (advanced, next) := Advance(c.effectPos, |stages|, loop);
        if advanced then (Cursor(1, next, false), stages[next].transition(Frac(p)))
        else (Cursor(t, c.effectPos, true), stages[c.effectPos].transition(1.0))
      else (Cursor(t, c.effectPos, false), stages[c.effectPos].transition(p))
  }

  /** The position after `k` samples. */
  function Run(stages: seq<EffectArgs>, loop: bool, c: Cursor, k: nat): (r: Cursor)
    requires Playable(stages) && OnStage(stages, c)
    ensures OnStage(stages, r)
    decreases k
  {
    if k == 0 then c else Step(stages, loop, Run(stages, loop, c, k - 1)).0
  }

  /** The rewrite of one sample in place: the effect applied to its left
      and right values at the given progress. */
  method Rewrite(samples: array<Sample>, i: int, effect: EffectFunc, progress: real)
    requires 0 <= i < samples.Length
    modifies samples
    ensures samples[i] == effect(old(samples[i]).left, old(samples[i]).right, progress)
    ensures forall j :: 0 <= j < samples.Length && j != i ==> samples[j] == old(samples[j])
  {
    var s := samples[i];
    samples[i] := effect(s.left, s.right, progress);
  }

  /** The sample `Stream` writes for input `s` at position `c`: the effect
      of the stage after the step, at the step's progress. */
  function Output(stages: seq<EffectArgs>, loop: bool, c: Cursor, s: Sample): (r: Sample)
    requires Playable(stages) && OnStage(stages, c)
    ensures c.final ==> r == stages[c.effectPos].effect(s.left, s.right, 1.0)
  {
    var (c', p) := Step(stages, loop, c);
    stages[c'.effectPos].effect(s.left, s.right, p)
  }

  /** The sample written inside a stage: the stage's effect at its
      transition of the time so far over the stage length. */
  lemma OutputInStage(stages: seq<EffectArgs>, loop: bool, c: Cursor, s: Sample)
    requires Playable(stages) && OnStage(stages, c) && !c.final
    requires 0 <= c.timePos && c.timePos + 1 <= stages[c.effectPos].length
    ensures var e := stages[c.effectPos];
      Output(stages, loop, c, s) == e.effect(s.left, s.right, e.transition((c.timePos + 1) as real / e.length as real))
  {
    var L := stages[c.effectPos].length as real;
    assert (c.timePos + 1) as real <= L;
    assert (c.timePos + 1) as real / L <= 1.0;
  }

  /** The sample written at rest: the effect of the resting stage at
      progress 1. */
  lemma OutputAtRest(stages: seq<EffectArgs>, loop: bool, c: Cursor, s: Sample)
    requires Playable(stages) && OnStage(stages, c) && c.final
    ensures Output(stages, loop, c, s) == stages[c.effectPos].effect(s.left, s.right, 1.0)
  {
  }

  /** Within a stage the time grows by one per sample; a stage switch
      restarts it at 1 on the stage `nextEffect` picks. */
  lemma StepTime(stages: seq<EffectArgs>, loop: bool, c: Cursor)
    requires Playable(stages) && OnStage(stages, c) && !c.final
    ensures var c' := Step(stages, loop, c).0;
      (c'.effectPos == c.effectPos && c'.timePos == c.timePos + 1) ||
      (c'.timePos == 1 && !c'.final && c'.effectPos == Advance(c.effectPos, |stages|, loop).1)
  {
  }

  /** The chain comes to rest only on its last stage and only when it does
      not loop; at rest it no longer moves and uses progress 1. */
  lemma StepFinal(stages: seq<EffectArgs>, loop: bool, c: Cursor)
    requires Playable(stages) && OnStage(stages, c)
    ensures c.final ==> Step(stages, loop, c) == (c, 1.0)
    ensures !c.final && Step(stages, loop, c).0.final ==>
      !loop && c.effectPos == |stages| - 1 && Step(stages, loop, c).0.effectPos == c.effectPos
  {
  }

  /** At the end of a stage of positive length the next sample leaves it:
      for the start of the next stage, for the start of the first when the
      last stage of a looping chain ends, or, on the last stage of a chain
      that does not loop, to rest with that stage's transition of 1. */
  lemma StepStageEnd(stages: seq<EffectArgs>, loop: bool, c: Cursor)
    requires Playable(stages) && OnStage(stages, c) && !c.final
    requires stages[c.effectPos].length > 0 && c.timePos == stages[c.effectPos].length
    ensures c.effectPos < |stages| - 1 ==> Step(stages, loop, c).0 == Cursor(1, c.effectPos + 1, false)
    ensures c.effectPos == |stages| - 1 && loop ==> Step(stages, loop, c).0 == Cursor(1, 0, false)
    ensures c.effectPos == |stages| - 1 && !loop ==>
      Step(stages, loop, c) == (Cursor(c.timePos + 1, c.effectPos, true), stages[c.effectPos].transition(1.0))
  {
    var L := stages[c.effectPos].length as real;
    assert (c.timePos + 1) as real / L > 1.0;
  }

  /** Once at rest, always at rest, in the same place. */
  lemma {:induction false} RunFrozen(stages: seq<EffectArgs>, loop: bool, c: Cursor, k: nat)
    requires Playable(stages) && OnStage(stages, c) && c.final
    ensures Run(stages, loop, c, k) == c
    decreases k
  {
    if k > 0 {
      RunFrozen(stages, loop, c, k - 1);
    }
  }

  /** A looping chain that is not at rest never comes to rest. */
  lemma {:induction false} RunLoopNeverFinal(stages: seq<EffectArgs>, c: Cursor, k: nat)
    requires Playable(stages) && OnStage(stages, c) && !c.final
    ensures !Run(stages, true, c, k).final
    decreases k
  {
    if k > 0 {
      RunLoopNeverFinal(stages, c, k - 1);
    }
  }

  /** Running `j` then `k` samples is running `j + k`. */
  lemma {:induction false} RunAdd(stages: seq<EffectArgs>, loop: bool, c: Cursor, j: nat, k: nat)
    requires Playable(stages) && OnStage(stages, c)
    ensures Run(stages, loop, Run(stages, loop, c, j), k) == Run(stages, loop, c, j + k)
    decreases k
  {
    if k > 0 {
      RunAdd(stages, loop, c, j, k - 1);
    }
  }

  /** `RunAdd` from a known intermediate position. */
  lemma RunFrom(stages: seq<EffectArgs>, loop: bool, c: Cursor, j: nat, mid: Cursor, k: nat)
    requires Playable(stages) && OnStage(stages, c) && Run(stages, loop, c, j) == mid
    ensures Run(stages, loop, c, j + k) == Run(stages, loop, mid, k)
  {
    RunAdd(stages, loop, c, j, k);
  }

  /** One sample past a known position. */
  lemma RunNext(stages: seq<EffectArgs>, loop: bool, c: Cursor, j: nat, mid: Cursor)
    requires Playable(stages) && OnStage(stages, c) && Run(stages, loop, c, j) == mid
    ensures Run(stages, loop, c, j + 1) == Step(stages, loop, mid).0
  {
  }

  /** While the time stays within the current (positive) stage length the
      chain just counts samples. */
  lemma {:induction false} RunInStage(stages: seq<EffectArgs>, loop: bool, c: Cursor, k: nat)
    requires Playable(stages) && OnStage(stages, c) && !c.final
    requires 0 <= c.timePos && c.timePos + k <= stages[c.effectPos].length
    ensures Run(stages, loop, c, k) == Cursor(c.timePos + k, c.effectPos, false)
    decreases k
  {
    if k > 0 {
      RunInStage(stages, loop, c, k - 1);
      var t := c.timePos + k;
      var L := stages[c.effectPos].length;
      assert t as real <= L as real;
      assert t as real / L as real <= 1.0;
    }
  }

  /** `effectsChain`: the wrapped streamer, the position, the stages and
      the loop flag. */
  class EffectsChain {
    const inner: Graph
    var timePos: int
    var effectPos: int
    var effectFinal: bool
    var effects: seq<EffectArgs>
    var loop: bool

    function Position(): Cursor
      reads this
    {
      Cursor(timePos, effectPos, effectFinal)
    }

    /** The tree node this chain stands for. */
    function Node(): Graph
      reads this
    {
      EffectsChain(inner, effects, loop)
    }

    /** `NewEffectsChain`: no stages, no loop, at the start. */
    constructor (inner: Graph)
      ensures this.inner == inner && effects == [] && !loop
      ensures Position() == Cursor(0, 0, false)
    {
      this.inner := inner;
      timePos, effectPos, effectFinal := 0, 0, false;
      effects, loop := [], false;
    }

    /** `Append`: one more stage after the others; the builder is the
        chain itself. */
    method Append(length: int, transition: TransitionFunc, effect: EffectFunc) returns (b: EffectsChain)
      modifies this`effects
      ensures b == this
      ensures effects == old(effects) + [EffectArgs(length, transition, effect)]
    {
      effects := effects + [EffectArgs(length, transition, effect)];
      b := this;
    }

    /** `Loop`: sets the loop flag. */
    method Loop(loop: bool) returns (b: EffectsChain)
      modifies this`loop
      ensures b == this && this.loop == loop
    {
      this.loop := loop;
      b := this;
    }

    /** `Build`: the chain itself, now used as a streamer. */
    method Build() returns (b: EffectsChain)
      ensures b == this
    {
      b := this;
    }

    /** `nextEffect`. */
    method NextEffect() returns (advanced: bool)
      modifies this`effectPos
      ensures (advanced, effectPos) == Advance(old(effectPos), |effects|, loop)
    {
      if effectPos < |effects| - 1 {
        effectPos := effectPos + 1;
        return true;
      }
      if loop {
        effectPos := 0;
        return true;
      }
      return false;
    }

    /** One pass of the sample loop of `Stream`, up to the rewrite of the
        sample: moves the position as `Step` says and returns the progress
        for the effect of the (possibly new) current stage. */
    method Tick() returns (progress: real)
      requires Playable(effects) && OnStage(effects, Position())
      modifies this`timePos, this`effectPos, this`effectFinal
      ensures (Position(), progress) == Step(effects, loop, old(Position()))
    {
      var currEffect := effects[effectPos];
      progress := 1.0;
      if !effectFinal {
        timePos := timePos + 1;
        progress := timePos as real / currEffect.length as real;
        if progress > 1.0 {
          var advanced := NextEffect();
          if advanced {
            currEffect := effects[effectPos];
            timePos := 1;
            progress := Frac(progress);
          } else {
            effectFinal := true;
            progress := 1.0;
          }
        }
        progress := currEffect.transition(progress);
      }
    }

    /** One pass of the sample loop of `Stream`: the step, then the rewrite
        of sample `i` by the current stage's effect. */
    method StreamSample(samples: array<Sample>, i: int)
      requires Playable(effects) && OnStage(effects, Position()) && 0 <= i < samples.Length
      modifies this`timePos, this`effectPos, this`effectFinal, samples
      ensures effects == old(effects) && loop == old(loop)
      ensures Position() == Step(effects, loop, old(Position())).0
      ensures samples[i] == Output(effects, loop, old(Position()), old(samples[i]))
      ensures forall j :: 0 <= j < samples.Length && j != i ==> samples[j] == old(samples[j])
    {
      var progress := Tick();
      Rewrite(samples, i, effects[effectPos].effect, progress);
    }

    /** `Stream`. The wrapped streamer has already filled `samples` and
        returned `n` and `ok`; sample by sample the chain steps as `Step`
        says and rewrites the sample as `Output` says; samples from `n` on
        are left alone and `n` and `ok` are passed on. */
    method Stream(samples: array<Sample>, n: int, ok: bool) returns (count: int, more: bool)
      requires Playable(effects) && OnStage(effects, Position()) && 0 <= n <= samples.Length
      modifies this`timePos, this`effectPos, this`effectFinal, samples
      ensures count == n && more == ok
      ensures Position() == Run(effects, loop, old(Position()), n)
      ensures forall i {:trigger samples[i]} :: 0 <= i < n ==>
        samples[i] == Output(effects, loop, Run(effects, loop, old(Position()), i), old(samples[i]))
      ensures forall i :: n <= i < samples.Length ==> samples[i] == old(samples[i])
    {
      ghost var es, lp, start, orig := effects, loop, Position(), samples[..];
      var i := 0;
      while i < n
        invariant 0 <= i <= n
        invariant effects == es && loop == lp
        invariant Position() == Run(es, lp, start, i)
        invariant forall j {:trigger samples[j]} :: 0 <= j < i ==>
          samples[j] == Output(es, lp, Run(es, lp, start, j), orig[j])
        invariant forall j :: i <= j < samples.Length ==> samples[j] == orig[j]
      {
        StreamSample(samples, i);
        i := i + 1;
      }
      count, more := n, ok;
    }
  }
}
