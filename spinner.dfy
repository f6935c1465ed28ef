/** models/base/spinner/spinner_model.go: a value picker with previous and
    next buttons over a list of options, optionally cyclic. Every
    operation returns a modified copy, so the model is a value and its
    operations are functions. Which button a click lands on is decided by
    the layout; it is an input here (`hit`). */
module Spinners {
  import opened Mouse

  datatype Spinner<T> = Spinner(cursor: int, options: seq<T>, allowCyclic: bool)

  /** The two bubblezone buttons, or neither. */
  datatype Button = PrevButton | NextButton | NoButton

  /** The cursor points at an option. */
  predicate Valid<T>(m: Spinner<T>)
  {
    0 <= m.cursor < |m.options|
  }

  /** `New`: starts on the first option. */
  function New<T>(options: seq<T>, allowCyclic: bool): (m: Spinner<T>)
    ensures m.cursor == 0 && m.options == options && m.allowCyclic == allowCyclic
    ensures Valid(m) <==> |options| > 0
  {
    Spinner(0, options, allowCyclic)
  }

  /** `Value`: the option under the cursor (Go panics with no options). */
  function Value<T>(m: Spinner<T>): (v: T)
    requires Valid(m)
    ensures v in m.options
  {
    m.options[m.cursor]
  }

  /** `SetValue`: moves the cursor to an index in range, and ignores any
      other. */
  function SetValue<T>(m: Spinner<T>, i: int): (r: Spinner<T>)
    ensures 0 <= i < |m.options| ==> r == m.(cursor := i) && Value(r) == m.options[i]
    ensures !(0 <= i < |m.options|) ==> r == m
  {
    if i >= 0 && i < |m.options| then m.(cursor := i) else m
  }

  /** `prevButtonHandler`: one back; below the first option it wraps to the
      last when cyclic and stays on the first otherwise. */
  function Prev<T>(m: Spinner<T>): (r: Spinner<T>)
    ensures r.options == m.options && r.allowCyclic == m.allowCyclic
  {
    var c := m.cursor - 1;
    if c < 0 then m.(cursor := if m.allowCyclic then |m.options| - 1 else 0)
    else m.(cursor := c)
  }

  /** `nextButtonHandler`: one forward; past the last option it wraps to
      the first when cyclic and stays on the last otherwise. */
  function Next<T>(m: Spinner<T>): (r: Spinner<T>)
    ensures r.options == m.options && r.allowCyclic == m.allowCyclic
  {
    var c := m.cursor + 1;
    if c >= |m.options| then m.(cursor := if m.allowCyclic then 0 else |m.options| - 1)
    else m.(cursor := c)
  }

  /** `Update`: only a left-button release reaches the buttons. */
  function Update<T>(m: Spinner<T>, msg: Msg, hit: Button): (r: Spinner<T>)
    ensures !IsLeftRelease(msg) || hit == NoButton ==> r == m
  {
    if !IsLeftRelease(msg) then m
    else
      match hit
      case PrevButton => Prev(m)
      case NextButton => Next(m)
      case NoButton => m
  }

  /** Moving keeps a valid cursor valid; the cursor moves by one inside
      the list, and at the ends it wraps (cyclic) or stays (not cyclic). */
  lemma MovesStayInRange<T>(m: Spinner<T>)
    requires Valid(m)
    ensures Valid(Prev(m)) && Valid(Next(m))
    ensures m.cursor > 0 ==> Prev(m).cursor == m.cursor - 1
    ensures m.cursor == 0 ==> Prev(m).cursor == (if m.allowCyclic then |m.options| - 1 else 0)
    ensures m.cursor < |m.options| - 1 ==> Next(m).cursor == m.cursor + 1
    ensures m.cursor == |m.options| - 1 ==> Next(m).cursor == (if m.allowCyclic then 0 else m.cursor)
  {
  }

  /** In cyclic mode the two buttons undo each other. */
  lemma CyclicInverse<T>(m: Spinner<T>)
    requires Valid(m) && m.allowCyclic
    ensures Prev(Next(m)) == m && Next(Prev(m)) == m
  {
  }

  /** Without wrapping, the ends absorb: next on the last option and prev
      on the first change nothing. */
  lemma ClampedEnds<T>(m: Spinner<T>)
    requires Valid(m) && !m.allowCyclic
    ensures m.cursor == |m.options| - 1 ==> Next(m) == m
    ensures m.cursor == 0 ==> Prev(m) == m
  {
  }

  /** Every message keeps a valid spinner valid. */
  lemma UpdateKeepsValid<T>(m: Spinner<T>, msg: Msg, hit: Button)
    requires Valid(m)
    ensures Valid(Update(m, msg, hit)) && Update(m, msg, hit).options == m.options
  {
    MovesStayInRange(m);
  }
}
