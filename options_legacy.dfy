/** models/base/options/options-model.go: the older radio-button row. No
    "none" entry; options are compared with Go's `==`; `SetValue` and
    `Update` loop over the options, reassigning the cursor of the copied
    model. Whether a click lands on option `i`'s mark is an input
    (`hit`). */
module LegacyOptionPickers {
  import opened Mouse

  datatype Picker<T> = Picker(cursor: int, options: seq<T>)

  predicate Valid<T>(m: Picker<T>)
  {
    0 <= m.cursor < |m.options|
  }

  /** `New`: starts on the first option. */
  function New<T>(options: seq<T>): (m: Picker<T>)
    ensures m.cursor == 0 && m.options == options
    ensures Valid(m) <==> |options| > 0
  {
    Picker(0, options)
  }

  /** `Value`: the selected option (Go panics with no options). */
  function Value<T>(m: Picker<T>): (v: T)
    requires Valid(m)
    ensures v in m.options
  {
    m.options[m.cursor]
  }

  /** `SetValue`: selects the last occurrence of `v`; when `v` is absent,
      the cursor stays where it was. */
  method SetValue<T(==)>(m: Picker<T>, v: T) returns (r: Picker<T>)
    ensures r.options == m.options
    ensures v !in m.options ==> r == m
    ensures v in m.options ==>
      Valid(r) && Value(r) == v && forall j :: r.cursor < j < |m.options| ==> m.options[j] != v
  {
    r := m;
    for i := 0 to |m.options|
      invariant r.options == m.options
      invariant (r == m && v !in m.options[..i]) ||
                (0 <= r.cursor < i && m.options[r.cursor] == v &&
                 forall j :: r.cursor < j < i ==> m.options[j] != v)
    {
      if r.options[i] == v {
        r := r.(cursor := i);
      }
    }
    assert m.options[..|m.options|] == m.options;
  }

  /** `Update`: a left-button release selects the last option whose mark
      was hit; with no mark hit, or any other message, nothing changes.
      The cursor therefore stays on an option. */
  method Update<T>(m: Picker<T>, msg: Msg, hit: int -> bool) returns (r: Picker<T>)
    ensures r.options == m.options
    ensures !IsLeftRelease(msg) || (forall i :: 0 <= i < |m.options| ==> !hit(i)) ==> r == m
    ensures IsLeftRelease(msg) && (exists i :: 0 <= i < |m.options| && hit(i)) ==>
      Valid(r) && hit(r.cursor) && forall j :: r.cursor < j < |m.options| ==> !hit(j)
  {
    if !IsLeftRelease(msg) {
      return m;
    }
    r := m;
    for i := 0 to |m.options|
      invariant r.options == m.options
      invariant (r == m && forall j :: 0 <= j < i ==> !hit(j)) ||
                (0 <= r.cursor < i && hit(r.cursor) && forall j :: r.cursor < j < i ==> !hit(j))
    {
      if hit(i) {
        r := r.(cursor := i);
      }
    }
  }
}
