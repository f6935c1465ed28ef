/** streamers/effect_loop.go (and its copy, streamers/composers/effect_loop.go):
    a streamer wrapper that rewrites each sample with an effect whose
    progress runs through a cycle of `length` samples. */
module EffectLoops {
  import opened Common
  import opened Graphs

  /** `TransitionLoop`: from 0 up to 1 over the first half of the period and
      back down to 0 over the second. */
  function TransitionLoop(p: real): (r: real)
    ensures 0.0 <= p <= 1.0 ==> 0.0 <= r <= 1.0
  {
    if p <= 0.5 then p * 2.0 else (1.0 - p) * 2.0
  }

  lemma TransitionLoopShape(p: real)
    ensures TransitionLoop(0.0) == 0.0 && TransitionLoop(0.5) == 1.0 && TransitionLoop(1.0) == 0.0
    ensures 0.0 <= p <= 1.0 ==> 0.0 <= TransitionLoop(p) <= 1.0
    ensures 0.0 <= p <= 1.0 ==> TransitionLoop(p) == TransitionLoop(1.0 - p)
  {
  }

  /** The progress the loop feeds to the transition for loop position
      `pos`: pos / length, cut down to its fractional part (`math.Modf`)
      only when it exceeds 1, so a position of exactly one period still
      reads 1. */
  function Progress(pos: int, length: int): (r: real)
    requires length != 0
    ensures 0 <= pos <= length ==> r == pos as real / length as real
    ensures 0 <= pos && 0 < length ==> 0.0 <= r <= 1.0
  {
    var p := pos as real / length as real;
    assert 0 <= pos <= length ==> p <= 1.0;
    if p > 1.0 then Frac(p) else p
  }

  /** Within the first period the progress is the plain ratio, up to and
      including 1 at the period's end. */
  lemma ProgressFirstPeriod(pos: int, length: int)
    requires 0 <= pos <= length && length > 0
    ensures Progress(pos, length) == pos as real / length as real
    ensures 0.0 <= Progress(pos, length) <= 1.0
  {
  }

  /** Beyond the first period the progress of `k` periods plus `r` samples
      is r / length: full periods are dropped, so a whole number of periods
      past the first reads 0. */
  lemma ProgressLaterPeriods(k: int, r: int, length: int)
    requires k >= 1 && 0 <= r < length && (k > 1 || r > 0)
    ensures Progress(k * length + r, length) == r as real / length as real
  {
    var L := length as real;
    var p := (k * length + r) as real / L;
    assert p == k as real + r as real / L;
    assert 0.0 <= r as real / L < 1.0;
    assert p > 1.0;
    assert p.Floor == k;
  }

  /** `effectLoop`: the wrapped streamer, the current position and the
      transition and effect it applies. */
  class EffectLoop {
    const inner: Graph
    var pos: int
    const length: int
    const transition: TransitionFunc
    const effect: EffectFunc

    /** The position stays in [0, |length|) between calls. */
    ghost predicate Valid()
      reads this
    {
      0 <= pos && (length != 0 ==> pos < Abs(length))
    }

    /** `NewEffectLoop`: a loop at position 0. */
    constructor (inner: Graph, length: int, transition: TransitionFunc, effect: EffectFunc)
      ensures this.inner == inner && this.length == length
      ensures this.transition == transition && this.effect == effect
      ensures pos == 0 && Valid()
    {
      this.inner := inner;
      this.length := length;
      this.transition := transition;
      this.effect := effect;
      pos := 0;
    }

    /** `Stream`. The wrapped streamer has already filled `samples` and
        returned `n` and `ok`; each of the first `n` samples is rewritten by
        the effect at the transition of its position's progress, the rest
        are left alone, `n` and `ok` are passed on, and the position
        advances by `n` modulo the length (Go panics on a zero length). */
    method Stream(samples: array<Sample>, n: int, ok: bool) returns (count: int, more: bool)
      requires Valid() && length != 0 && 0 <= n <= samples.Length
      modifies this`pos, samples
      ensures count == n && more == ok
      ensures pos == GoRem(old(pos) + n, length) && Valid()
      ensures forall i :: 0 <= i < n ==>
        samples[i] == effect(old(samples[i]).left, old(samples[i]).right, transition(Progress(old(pos) + i, length)))
      ensures forall i :: n <= i < samples.Length ==> samples[i] == old(samples[i])
    {
      var start := pos;
      var i := 0;
      while i < n
        invariant 0 <= i <= n
        invariant forall j :: 0 <= j < i ==>
          samples[j] == effect(old(samples[j]).left, old(samples[j]).right, transition(Progress(start + j, length)))
        invariant forall j :: i <= j < samples.Length ==> samples[j] == old(samples[j])
        invariant pos == start
      {
        var s := samples[i];
        samples[i] := effect(s.left, s.right, transition(Progress(start + i, length)));
        i := i + 1;
      }
      pos := GoRem(pos + n, length);
      count, more := n, ok;
    }
  }
}
