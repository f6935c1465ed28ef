/** models/base/slider/slider_model.go: a horizontal slider over the grid
    min, min + step, ..., max. The model is a value (Go's value receivers
    return modified copies); `Update` and `View` walk the grid with a loop
    and are methods proved against `Update`'s specification function and
    against the cell precedence. The zone prefix and the bubblezone marks
    around each cell are left out. */
module Sliders {
  import opened Common
  import opened Mouse

  datatype Slider = Slider(min: int, max: int, step: int, value: int, mids: seq<int>)

  const MinNotBelowMax: string := "min should be smaller than max"
  const NotDivisible: string := "cannot divided by step"
  const MidNotLegal: string := "mid is not a legal value"
  const ValNotLegal: string := "val is not a legal value"
  const StepNotPositive: string := "step should be positive"

  const EdgeSymbol: string := "¦"
  const MidSymbol: string := "|"
  const StepSymbol: string := "-"
  const ValueSymbol: string := "■"

  /** `validate`: inside [min, max] and a whole number of steps below
      max. Go panics on a zero step. */
  function Validate(m: Slider, v: int): (r: bool)
    requires m.step != 0
    ensures r <==> m.min <= v <= m.max && (m.max - v) % m.step == 0
  {
    v >= m.min && v <= m.max && GoRem(m.max - v, m.step) == 0
  }

  /** A slider `New` accepts, with a positive step. */
  predicate Valid(m: Slider)
  {
    m.step > 0 && m.min < m.max && (m.max - m.min) % m.step == 0 && Validate(m, m.value)
  }

  /** `New` as written: the checks in order, min below max, the span a
      whole number of steps (Go panics on a zero step), min itself legal
      (which the two checks before already imply), the value legal. The
      step's sign is not checked and `mids` is not checked at all. */
  function NewAsWritten(min: int, max: int, step: int, val: int, mids: seq<int>): (r: Result<Slider, string>)
    requires step != 0
    ensures r.Ok? <==> min < max && (max - min) % step == 0 && Validate(Slider(min, max, step, val, mids), val)
    ensures r.Ok? ==> r.value == Slider(min, max, step, val, mids)
  {
    var m := Slider(min, max, step, val, mids);
    if min >= max then Err(MinNotBelowMax)
    else if GoRem(max - min, step) != 0 then Err(NotDivisible)
    else if !Validate(m, min) then Err(MidNotLegal)
    else if !Validate(m, val) then Err(ValNotLegal)
    else Ok(m)
  }

  /** The check of min can never fail. */
  lemma MinAlwaysLegal(min: int, max: int, step: int, val: int, mids: seq<int>)
    requires step != 0
    ensures NewAsWritten(min, max, step, val, mids) != Err(MidNotLegal)
  {
  }

  /** A negative step passes every check of `New`; the grid loops of
      `Update` and `View` then never leave [min, max]: every point
      min + k * step is at most max. */
  lemma NegativeStepAccepted()
    ensures NewAsWritten(0, 10, -1, 5, []) == Ok(Slider(0, 10, -1, 5, []))
    ensures forall k: nat :: 0 + k * -1 <= 10
  {
  }

  /** `New` with the step required to be positive, so that the grid is
      finite; otherwise the same checks and messages. */
  function New(min: int, max: int, step: int, val: int, mids: seq<int>): (r: Result<Slider, string>)
    ensures r.Ok? <==> step > 0 && min < max && (max - min) % step == 0 && Validate(Slider(min, max, step, val, mids), val)
    ensures r.Ok? ==> r.value == Slider(min, max, step, val, mids) && Valid(r.value)
    ensures min >= max ==> r == Err(MinNotBelowMax)
    ensures min < max && step <= 0 ==> r == Err(StepNotPositive)
    ensures min < max && step > 0 && (max - min) % step != 0 ==> r == Err(NotDivisible)
  {
    if min >= max then Err(MinNotBelowMax)
    else if step <= 0 then Err(StepNotPositive)
    else NewAsWritten(min, max, step, val, mids)
  }

  /** `mids` only draws marks: it never decides whether `New` succeeds. */
  lemma NewIgnoresMids(min: int, max: int, step: int, val: int, mids: seq<int>, others: seq<int>)
    ensures New(min, max, step, val, mids).Ok? == New(min, max, step, val, others).Ok?
  {
  }

  function Value(m: Slider): (v: int)
    ensures Valid(m) ==> m.min <= v <= m.max && (m.max - v) % m.step == 0
  {
    m.value
  }

  /** `SetValue`: a legal value is set; any other leaves the slider as it
      was and reports it. */
  function SetValue(m: Slider, v: int): (r: (Slider, Option<string>))
    requires m.step != 0
    ensures Validate(m, v) ==> r == (m.(value := v), None)
    ensures !Validate(m, v) ==> r == (m, Some(ValNotLegal))
  {
    if !Validate(m, v) then (m, Some(ValNotLegal)) else (m.(value := v), None)
  }

  /** Setting reads back, and keeps the slider valid. */
  lemma SetValueReadsBack(m: Slider, v: int)
    requires Valid(m)
    ensures Valid(SetValue(m, v).0)
    ensures SetValue(m, v).1.None? <==> Validate(m, v)
    ensures SetValue(m, v).1.None? ==> Value(SetValue(m, v).0) == v
    ensures SetValue(m, v).1.Some? ==> Value(SetValue(m, v).0) == Value(m)
  {
  }

  lemma MulAtLeast(d: int, s: int)
    requires d >= 1 && s > 0
    ensures d * s >= s
  {
    var e := d - 1;
    assert d * s == e * s + s;
  }

  lemma DivModUnique(a: int, s: int, q: int, r: int)
    requires s > 0 && a == q * s + r && 0 <= r < s
    ensures a / s == q && a % s == r
  {
    var q', r' := a / s, a % s;
    assert q * s + r == q' * s + r';
    assert (q - q') * s == r' - r;
    if q > q' {
      MulAtLeast(q - q', s);
    } else if q < q' {
      MulAtLeast(q' - q, s);
    }
  }

  lemma ModAddMultiple(x: int, k: int, s: int)
    requires s > 0
    ensures (x + k * s) % s == x % s
  {
    var q, r := x / s, x % s;
    assert x + k * s == (q + k) * s + r;
    DivModUnique(x + k * s, s, q + k, r);
  }

  /** The first grid point from `i` on, in steps of `step` up to `max`,
      whose cell was clicked. */
  function FirstHit(i: int, max: int, step: int, hit: int -> bool): Option<int>
    requires step > 0
    decreases max + step - i
  {
    if i > max then None
    else if hit(i) then Some(i)
    else FirstHit(i + step, max, step, hit)
  }

  /** The grid point after `i` is `i + step`: a point a whole number of
      steps above `i` is `i` itself or a whole number of steps above
      `i + step`. */
  lemma GridNext(i: int, j: int, step: int)
    requires step > 0 && j > i && (j - i) % step == 0
    ensures j >= i + step && (j - (i + step)) % step == 0
  {
    ModAddMultiple(j - (i + step), 1, step);
  }

  /** The first hit is a clicked grid point between `i` and `max`. */
  lemma {:induction false} FirstHitOnGrid(i: int, max: int, step: int, hit: int -> bool)
    requires step > 0
    ensures var h := FirstHit(i, max, step, hit);
      h.Some? ==> i <= h.value <= max && hit(h.value) && (h.value - i) % step == 0
    decreases max + step - i
  {
    if i <= max && !hit(i) {
      FirstHitOnGrid(i + step, max, step, hit);
      var h := FirstHit(i + step, max, step, hit);
      if h.Some? {
        ModAddMultiple(h.value - (i + step), 1, step);
      }
    }
  }

  /** No grid point before the first hit was clicked; with no hit, no
      grid point up to `max` was. */
  lemma {:induction false} FirstHitIsFirst(i: int, max: int, step: int, hit: int -> bool)
    requires step > 0
    ensures var h := FirstHit(i, max, step, hit);
      forall j :: i <= j <= max && (j - i) % step == 0 && (h.None? || j < h.value) ==> !hit(j)
    decreases max + step - i
  {
    if i <= max && !hit(i) {
      FirstHitIsFirst(i + step, max, step, hit);
      var h := FirstHit(i, max, step, hit);
      forall j | i <= j <= max && (j - i) % step == 0 && (h.None? || j < h.value)
        ensures !hit(j)
      {
        if j > i {
          GridNext(i, j, step);
        }
      }
    }
  }

  /** `Update`: a left-button message (any action) moves the value to the
      first clicked grid point; anything else, or a click off the grid,
      changes nothing. */
  function UpdateSpec(m: Slider, msg: Msg, hit: int -> bool): Slider
    requires m.step > 0
  {
    if !IsLeft(msg) then m
    else
      match FirstHit(m.min, m.max, m.step, hit)
      case Some(v) => m.(value := v)
      case None => m
  }

  method Update(m: Slider, msg: Msg, hit: int -> bool) returns (r: Slider)
    requires m.step > 0
    ensures r == UpdateSpec(m, msg, hit)
  {
    if !IsLeft(msg) {
      return m;
    }
    var i := m.min;
    while i <= m.max
      invariant FirstHit(i, m.max, m.step, hit) == FirstHit(m.min, m.max, m.step, hit)
      decreases m.max - i
    {
      if hit(i) {
        return m.(value := i);
      }
      i := i + m.step;
    }
    return m;
  }

  /** A point a whole number of steps above min, in a valid slider, is a
      legal value. */
  lemma GridPointLegal(m: Slider, v: int)
    requires Valid(m) && m.min <= v <= m.max && (v - m.min) % m.step == 0
    ensures Validate(m, v)
  {
    var k := (v - m.min) / m.step;
    assert v - m.min == k * m.step;
    ModAddMultiple(m.max - m.min, -k, m.step);
    assert m.max - v == (m.max - m.min) + -k * m.step;
  }

  /** Clicks only ever select a grid point, so a valid slider stays valid;
      the new value is the first clicked point, and nothing changes
      without a left-button message. */
  lemma UpdateKeepsValid(m: Slider, msg: Msg, hit: int -> bool)
    requires Valid(m)
    ensures var r := UpdateSpec(m, msg, hit);
      Valid(r) && r.(value := m.value) == m &&
      (!IsLeft(msg) ==> r == m) &&
      (r.value != m.value ==> (hit(r.value) &&
        forall j :: m.min <= j < r.value && (j - m.min) % m.step == 0 ==> !hit(j)))
  {
    FirstHitOnGrid(m.min, m.max, m.step, hit);
    FirstHitIsFirst(m.min, m.max, m.step, hit);
    var h := FirstHit(m.min, m.max, m.step, hit);
    if IsLeft(msg) && h.Some? {
      GridPointLegal(m, h.value);
    }
  }

  /** `View`'s symbol for grid point `i`: the value mark first, then the
      edge mark at min and max, then a mid mark, else a step mark. */
  function Cell(m: Slider, i: int): string
  {
    if i == m.value then ValueSymbol
    else if i == m.min || i == m.max then EdgeSymbol
    else if i in m.mids then MidSymbol
    else StepSymbol
  }

  /** `View`: one cell per grid point from min up to max. */
  method View(m: Slider) returns (cells: seq<string>)
    requires m.step > 0
    ensures forall k :: 0 <= k < |cells| ==> cells[k] == Cell(m, m.min + k * m.step)
    ensures m.min + |cells| * m.step > m.max
    ensures |cells| > 0 ==> m.min + (|cells| - 1) * m.step <= m.max
    ensures m.min <= m.max ==> |cells| > 0
  {
    cells := [];
    var i := m.min;
    while i <= m.max
      invariant i == m.min + |cells| * m.step
      invariant |cells| > 0 ==> m.min + (|cells| - 1) * m.step <= m.max
      invariant forall k :: 0 <= k < |cells| ==> cells[k] == Cell(m, m.min + k * m.step)
      decreases m.max - i
    {
      var val: string;
      if i == m.value {
        val := ValueSymbol;
      } else if i == m.min || i == m.max {
        val := EdgeSymbol;
      } else if i in m.mids {
        val := MidSymbol;
      } else {
        val := StepSymbol;
      }
      cells := cells + [val];
      i := i + m.step;
    }
  }

  /** The number of grid points of a valid slider. */
  lemma GridCount(m: Slider, n: int)
    requires Valid(m) && n > 0 && m.min + (n - 1) * m.step <= m.max < m.min + n * m.step
    ensures n == (m.max - m.min) / m.step + 1
  {
    var q := (m.max - m.min) / m.step;
    assert m.max - m.min == q * m.step;
    if n - 1 > q {
      MulAtLeast(n - 1 - q, m.step);
    } else if n - 1 < q {
      MulAtLeast(q - (n - 1), m.step);
    }
  }

  /** The value of a valid slider sits on the grid, at index
      (value - min) / step. */
  lemma ValueGridIndex(m: Slider)
    requires Valid(m)
    ensures var vk, n := (m.value - m.min) / m.step, (m.max - m.min) / m.step;
      m.value == m.min + vk * m.step && 0 <= vk <= n && m.max == m.min + n * m.step
  {
    var q := (m.max - m.min) / m.step;
    var p := (m.max - m.value) / m.step;
    assert m.max - m.value == p * m.step;
    assert m.max - m.min == q * m.step;
    assert m.value - m.min == (q - p) * m.step;
    DivModUnique(m.value - m.min, m.step, q - p, 0);
    var vk := q - p;
    if vk < 0 {
      MulAtLeast(-vk, m.step);
    }
    if p < 0 {
      MulAtLeast(-p, m.step);
    }
  }

  /** What `View` shows for a valid slider: (max - min) / step + 1 cells,
      exactly one of them the value mark, at the value's grid index; the
      two ends carry the edge mark unless the value is there. */
  lemma ViewCells(m: Slider, cells: seq<string>)
    requires Valid(m)
    requires forall k :: 0 <= k < |cells| ==> cells[k] == Cell(m, m.min + k * m.step)
    requires m.min + |cells| * m.step > m.max
    requires |cells| > 0 && m.min + (|cells| - 1) * m.step <= m.max
    ensures |cells| == (m.max - m.min) / m.step + 1
    ensures var vk := (m.value - m.min) / m.step;
      0 <= vk < |cells| && cells[vk] == ValueSymbol &&
      forall k :: 0 <= k < |cells| && k != vk ==> cells[k] != ValueSymbol
    ensures m.value != m.min ==> cells[0] == EdgeSymbol
    ensures m.value != m.max ==> cells[|cells| - 1] == EdgeSymbol
  {
    GridCount(m, |cells|);
    ValueGridIndex(m);
    var vk := (m.value - m.min) / m.step;
    forall k | 0 <= k < |cells| && k != vk
      ensures cells[k] != ValueSymbol
    {
      if m.min + k * m.step == m.value {
        DivModUnique(m.value - m.min, m.step, k, 0);
      }
    }
  }
}
