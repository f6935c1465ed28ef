/** models/base/options/options_model.go: a row of radio buttons over a
    list of options, optionally allowing none to be selected (cursor -1).
    `New`, `Value` and `ClearValue` are functions; `SetValue` and `Update`
    loop over the options, reassigning the cursor of the copied model, and
    are methods. The elements' `Equals` method is a parameter (`equals`),
    and whether a click lands on option `i`'s mark is an input (`hit`). */
module OptionPickers {
  import opened Common
  import opened Mouse

  datatype Picker<T> = Picker(cursor: int, options: seq<T>, allowNone: bool)

  /** `noneIndex`. */
  const NoneIndex: int := -1

  /** The cursor is on an option, or on "none" when that is allowed. */
  predicate Valid<T>(m: Picker<T>)
  {
    0 <= m.cursor < |m.options| || (m.allowNone && m.cursor == NoneIndex)
  }

  /** `New`: starts on "none" exactly when it is allowed, else on the
      first option. */
  function New<T>(options: seq<T>, allowNone: bool): (m: Picker<T>)
    ensures m.options == options && m.allowNone == allowNone
    ensures m.cursor == NoneIndex <==> allowNone
    ensures !allowNone ==> m.cursor == 0
    ensures Valid(m) <==> allowNone || |options| > 0
  {
    Picker(if allowNone then NoneIndex else 0, options, allowNone)
  }

  /** `Value`: the selected option, or Go's zero value (`None`; the
      options are references) when none is selected. */
  function Value<T>(m: Picker<T>): (r: Option<T>)
    requires Valid(m)
    ensures r.None? <==> m.cursor == NoneIndex
    ensures r.Some? ==> r.value == m.options[m.cursor]
  {
    if m.cursor == NoneIndex then None else Some(m.options[m.cursor])
  }

  /** `SetValue`: selects the last option equal to `v`; with none equal,
      the cursor stays where it was. */
  method SetValue<T>(m: Picker<T>, v: T, equals: (T, T) -> bool) returns (r: Picker<T>)
    ensures r.options == m.options && r.allowNone == m.allowNone
    ensures (forall i :: 0 <= i < |m.options| ==> !equals(m.options[i], v)) ==> r.cursor == m.cursor
    ensures (exists i :: 0 <= i < |m.options| && equals(m.options[i], v)) ==>
      0 <= r.cursor < |m.options| && equals(m.options[r.cursor], v) &&
      forall j :: r.cursor < j < |m.options| ==> !equals(m.options[j], v)
  {
    r := m;
    for i := 0 to |m.options|
      invariant r.options == m.options && r.allowNone == m.allowNone
      invariant (r.cursor == m.cursor && forall j :: 0 <= j < i ==> !equals(m.options[j], v)) ||
                (0 <= r.cursor < i && equals(m.options[r.cursor], v) &&
                 forall j :: r.cursor < j < i ==> !equals(m.options[j], v))
    {
      if equals(r.options[i], v) {
        r := r.(cursor := i);
      }
    }
  }

  /** `ClearValue`: selects "none" when allowed, else changes nothing. */
  function ClearValue<T>(m: Picker<T>): (r: Picker<T>)
    ensures m.allowNone ==> r == m.(cursor := NoneIndex) && Value(r).None?
    ensures !m.allowNone ==> r == m
  {
    if m.allowNone then m.(cursor := NoneIndex) else m
  }

  /** One visited option of `Update`'s loop: a click on the selected
      option deselects it when "none" is allowed, any other click selects
      the option. */
  function Click(cursor: int, allowNone: bool, hit: int -> bool, i: int): int
  {
    if !hit(i) then cursor
    else if allowNone && cursor == i then NoneIndex
    else i
  }

  /** The cursor after `Update`'s loop has visited options 0 to n - 1. */
  function Clicks(cursor: int, allowNone: bool, hit: int -> bool, n: nat): int
  {
    if n == 0 then cursor else Click(Clicks(cursor, allowNone, hit, n - 1), allowNone, hit, n - 1)
  }

  /** `Update`: a left-button release visits every option; anything else
      is ignored. */
  method Update<T>(m: Picker<T>, msg: Msg, hit: int -> bool) returns (r: Picker<T>)
    ensures !IsLeftRelease(msg) ==> r == m
    ensures IsLeftRelease(msg) ==> r == m.(cursor := Clicks(m.cursor, m.allowNone, hit, |m.options|))
  {
    if !IsLeftRelease(msg) {
      return m;
    }
    r := m;
    for i := 0 to |m.options|
      invariant r == m.(cursor := Clicks(m.cursor, m.allowNone, hit, i))
    {
      if hit(i) {
        if r.allowNone && r.cursor == i {
          r := r.(cursor := NoneIndex);
        } else {
          r := r.(cursor := i);
        }
      }
    }
  }

  /** Clicks keep the cursor on an option or on an allowed "none". */
  lemma {:induction false} ClicksKeepValid<T>(m: Picker<T>, hit: int -> bool, n: nat)
    requires Valid(m) && n <= |m.options|
    ensures Valid(m.(cursor := Clicks(m.cursor, m.allowNone, hit, n)))
  {
    if n > 0 {
      ClicksKeepValid(m, hit, n - 1);
    }
  }

  /** Clicks outside every option change nothing. */
  lemma {:induction false} ClicksMissed(cursor: int, allowNone: bool, hit: int -> bool, n: nat)
    requires forall i :: 0 <= i < n ==> !hit(i)
    ensures Clicks(cursor, allowNone, hit, n) == cursor
  {
    if n > 0 {
      ClicksMissed(cursor, allowNone, hit, n - 1);
    }
  }

  /** A click on exactly one option: it toggles that option (deselects it
      if it was selected and "none" is allowed, selects it otherwise). */
  lemma ClickOnOne<T>(m: Picker<T>, hit: int -> bool, k: int)
    requires 0 <= k < |m.options|
    requires hit(k) && forall i :: 0 <= i < |m.options| && i != k ==> !hit(i)
    ensures var c := Clicks(m.cursor, m.allowNone, hit, |m.options|);
      c == (if m.allowNone && m.cursor == k then NoneIndex else k)
  {
    ClicksMissed(m.cursor, m.allowNone, hit, k);
    var c := Click(m.cursor, m.allowNone, hit, k);
    assert Clicks(m.cursor, m.allowNone, hit, k + 1) == c;
    ClicksFrom(m.cursor, m.allowNone, hit, k + 1, |m.options|, c);
  }

  /** After the last click, options that were not hit leave the cursor
      alone. */
  lemma {:induction false} ClicksFrom(cursor: int, allowNone: bool, hit: int -> bool, k: nat, n: nat, c: int)
    requires k <= n && Clicks(cursor, allowNone, hit, k) == c
    requires forall i :: k <= i < n ==> !hit(i)
    ensures Clicks(cursor, allowNone, hit, n) == c
    decreases n - k
  {
    if k < n {
      ClicksFrom(cursor, allowNone, hit, k + 1, n, c);
    }
  }
}
