/** models/base/tremolo/tremolo-control-model.go: the tremolo panel, made
    of an on/off checkbox, a speed slider over a fixed table of periods, a
    gain slider in tenths, and pulsing and reverse checkboxes. The getters
    are expressions over the widgets' values. A checkbox is its boolean;
    the layout decides which widget a click lands on (`zone`) and which
    slider cell (`hit`). */
module TremoloControls {
  import opened Mouse
  import Sliders

  /** `gainSliderRatio`. */
  const GainSliderRatio: int := 10

  /** `speedValues`: tremolo periods in seconds. */
  function SpeedValues(): (r: seq<real>)
    ensures |r| == 15
    ensures forall i :: 0 <= i < |r| ==> r[i] > 0.0
  {
    [1.0 / 1000.0, 1.0 / 500.0, 1.0 / 100.0, 1.0 / 75.0, 1.0 / 50.0, 1.0 / 25.0, 1.0 / 20.0,
     1.0 / 10.0, 1.0 / 5.0, 1.0 / 3.0, 1.0 / 2.0, 1.0, 2.0, 3.0, 5.0]
  }

  datatype Control = Control(isOn: bool, speed: Sliders.Slider, gain: Sliders.Slider, pulsing: bool, reverse: bool)

  /** The widget a click falls into, or none. */
  datatype Zone = IsOnZone | SpeedZone | GainZone | PulsingZone | ReverseZone | NoZone

  /** The speed slider indexes the period table; the gain slider runs from
      -10 to 20 tenths. Both as built by `New`. */
  predicate Valid(m: Control)
  {
    m.speed.min == 0 && m.speed.max == |SpeedValues()| - 1 && m.speed.step == 1 && Sliders.Valid(m.speed) &&
    m.gain.min == -GainSliderRatio && m.gain.max == 2 * GainSliderRatio && m.gain.step == 1 && Sliders.Valid(m.gain)
  }

  /** `Gain`: the gain slider's value in tenths. */
  function Gain(m: Control): (g: real)
    ensures Valid(m) ==> -1.0 <= g <= 2.0
  {
    m.gain.value as real / GainSliderRatio as real
  }

  /** `StartGain`: 1 when reversed, the gain otherwise. */
  function StartGain(m: Control): (g: real)
    ensures m.reverse ==> g == 1.0
    ensures !m.reverse ==> g == Gain(m)
  {
    if m.reverse then 1.0 else Gain(m)
  }

  /** `EndGain`: the gain when reversed, 1 otherwise. */
  function EndGain(m: Control): (g: real)
    ensures m.reverse ==> g == Gain(m)
    ensures !m.reverse ==> g == 1.0
  {
    if m.reverse then Gain(m) else 1.0
  }

  /** Reversing swaps the start and end gains. */
  lemma ReverseSwaps(m: Control)
    ensures StartGain(m.(reverse := !m.reverse)) == EndGain(m)
    ensures EndGain(m.(reverse := !m.reverse)) == StartGain(m)
  {
  }

  /** `durationSeconds`: the period selected by the speed slider. Go
      panics on an index outside the table. */
  function DurationSeconds(m: Control): (s: real)
    requires 0 <= m.speed.value < |SpeedValues()|
    ensures s > 0.0 && s in SpeedValues()
  {
    SpeedValues()[m.speed.value]
  }

  /** `Duration`: the period as a `time.Duration`, nanoseconds truncated
      toward zero. */
  function Duration(m: Control): (d: int)
    requires 0 <= m.speed.value < |SpeedValues()|
    ensures d >= 0
    ensures d as real <= DurationSeconds(m) * 1000000000.0 < d as real + 1.0
  {
    (DurationSeconds(m) * 1000000000.0).Floor
  }

  /** A valid panel always selects a period in the table. */
  lemma DurationInTable(m: Control)
    requires Valid(m)
    ensures 0 <= m.speed.value < |SpeedValues()|
  {
  }

  /** `New`: both sliders are accepted; the panel starts off, not pulsing,
      not reversed, on the middle period (0.1 s) at gain 0.5, with mid
      marks at the middle speed and at gains 0 and 1. */
  function New(): (m: Control)
    ensures Valid(m)
    ensures !m.isOn && !m.pulsing && !m.reverse
    ensures m.speed.value == |SpeedValues()| / 2 && DurationSeconds(m) == 0.1 && Duration(m) == 100000000
    ensures Gain(m) == 0.5 && StartGain(m) == 0.5 && EndGain(m) == 1.0
    ensures m.speed.mids == [7] && m.gain.mids == [0, 10]
  {
    var n := |SpeedValues()|;
    var speed := Sliders.New(0, n - 1, 1, n / 2, [n / 2]);
    var gain := Sliders.New(-GainSliderRatio, 2 * GainSliderRatio, 1, GainSliderRatio / 2, [0, GainSliderRatio]);
    Control(false, speed.value, gain.value, false, false)
  }

  /** `Update`: the widget under a mouse message handles it. A checkbox
      toggles on a left-button release; a slider follows its own
      `Update`. */
  function Update(m: Control, msg: Msg, zone: Zone, hit: int -> bool): (r: Control)
    requires m.speed.step > 0 && m.gain.step > 0
    ensures !msg.MouseMsg? || zone == NoZone ==> r == m
  {
    if !msg.MouseMsg? then m
    else
      match zone
      case IsOnZone => m.(isOn := if IsLeftRelease(msg) then !m.isOn else m.isOn)
      case SpeedZone => m.(speed := Sliders.UpdateSpec(m.speed, msg, hit))
      case GainZone => m.(gain := Sliders.UpdateSpec(m.gain, msg, hit))
      case PulsingZone => m.(pulsing := if IsLeftRelease(msg) then !m.pulsing else m.pulsing)
      case ReverseZone => m.(reverse := if IsLeftRelease(msg) then !m.reverse else m.reverse)
      case NoZone => m
  }

  /** Every message keeps the panel valid, so the gain stays in [-1, 2]
      and the period stays in the table. */
  lemma UpdateKeepsValid(m: Control, msg: Msg, zone: Zone, hit: int -> bool)
    requires Valid(m)
    ensures Valid(Update(m, msg, zone, hit))
    ensures var r := Update(m, msg, zone, hit);
      -1.0 <= Gain(r) <= 2.0 && 0 <= r.speed.value < |SpeedValues()|
  {
    Sliders.UpdateKeepsValid(m.speed, msg, hit);
    Sliders.UpdateKeepsValid(m.gain, msg, hit);
  }
}
