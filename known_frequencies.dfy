/** known_frequencies.go: the pitch table as constructor functions (C-1 … B10
    in scientific pitch notation, source of the values: the table of note
    frequencies of the scientific pitch notation article), its Hz index,
    `GetRange` and `Silence`. */
module KnownFrequencies {
  import opened Common
  import opened Pitch

  /** A pitch (in Hz) that stands for silence; it has no midi id. */
  function Silence(): (f: Frequency)
    ensures f.hz == 0.0 && f.midiId == UnknownMidiId
  {
    Frequency(Label("Silence"), 0.0, UnknownMidiId)
  }

  function CMinus1(): Frequency { Frequency(Label("C-1"), 8.175799, 0) }
  function DFlatMinus1(): Frequency { Frequency(Label("C♯/D♭-1"), 8.661957, 1) }
  function CSharpMinus1(): Frequency { DFlatMinus1() }
  function DMinus1(): Frequency { Frequency(Label("D-1"), 9.177024, 2) }
  function DSharpMinus1(): Frequency { Frequency(Label("E♭/D♯-1"), 9.722718, 3) }
  function EFlatMinus1(): Frequency { DSharpMinus1() }
  function EMinus1(): Frequency { Frequency(Label("E-1"), 10.30086, 4) }
  function FMinus1(): Frequency { Frequency(Label("F-1"), 10.91338, 5) }
  function GFlatMinus1(): Frequency { Frequency(Label("F♯/G♭-1"), 11.56233, 6) }
  function FSharpMinus1(): Frequency { GFlatMinus1() }
  function GMinus1(): Frequency { Frequency(Label("G-1"), 12.24986, 7) }
  function GSharpMinus1(): Frequency { Frequency(Label("A♭/G♯-1"), 12.97827, 8) }
  function AFlatMinus1(): Frequency { GSharpMinus1() }
  function AMinus1(): Frequency { Frequency(Label("A-1"), 13.75000, 9) }
  function ASharpMinus1(): Frequency { Frequency(Label("B♭/A♯-1"), 14.56762, 10) }
  function BFlatMinus1(): Frequency { ASharpMinus1() }
  function BMinus1(): Frequency { Frequency(Label("B-1"), 15.43385, 11) }
  function C0(): Frequency { Frequency(Label("C0"), 16.35160, 12) }
  function DFlat0(): Frequency { Frequency(Label("C♯/D♭0"), 17.32391, 13) }
  function CSharp0(): Frequency { DFlat0() }
  function D0(): Frequency { Frequency(Label("D0"), 18.35405, 14) }
  function DSharp0(): Frequency { Frequency(Label("E♭/D♯0"), 19.44544, 15) }
  function EFlat0(): Frequency { DSharp0() }
  function E0(): Frequency { Frequency(Label("E0"), 20.60172, 16) }
  function F0(): Frequency { Frequency(Label("F0"), 21.82676, 17) }
  function GFlat0(): Frequency { Frequency(Label("F♯/G♭0"), 23.12465, 18) }
  function FSharp0(): Frequency { GFlat0() }
  function G0(): Frequency { Frequency(Label("G0"), 24.49971, 19) }
  function GSharp0(): Frequency { Frequency(Label("A♭/G♯0"), 25.95654, 20) }
  function AFlat0(): Frequency { GSharp0() }
  function A0(): Frequency { Frequency(Label("A0"), 27.50000, 21) }
  function ASharp0(): Frequency { Frequency(Label("B♭/A♯0"), 29.13524, 22) }
  function BFlat0(): Frequency { ASharp0() }
  function B0(): Frequency { Frequency(Label("B0"), 30.86771, 23) }
  function C1(): Frequency { Frequency(Label("C1"), 32.70320, 24) }
  function DFlat1(): Frequency { Frequency(Label("C♯/D♭1"), 34.64783, 25) }
  function CSharp1(): Frequency { DFlat1() }
  function D1(): Frequency { Frequency(Label("D1"), 36.70810, 26) }
  function DSharp1(): Frequency { Frequency(Label("E♭/D♯1"), 38.89087, 27) }
  function EFlat1(): Frequency { DSharp1() }
  function E1(): Frequency { Frequency(Label("E1"), 41.20344, 28) }
  function F1(): Frequency { Frequency(Label("F1"), 43.65353, 29) }
  function GFlat1(): Frequency { Frequency(Label("F♯/G♭1"), 46.24930, 30) }
  function FSharp1(): Frequency { GFlat1() }
  function G1(): Frequency { Frequency(Label("G1"), 48.99943, 31) }
  function GSharp1(): Frequency { Frequency(Label("A♭/G♯1"), 51.91309, 32) }
  function AFlat1(): Frequency { GSharp1() }
  function A1(): Frequency { Frequency(Label("A1"), 55.00000, 33) }
  function ASharp1(): Frequency { Frequency(Label("B♭/A♯1"), 58.27047, 34) }
  function BFlat1(): Frequency { ASharp1() }
  function B1(): Frequency { Frequency(Label("B1"), 61.73541, 35) }
  function C2(): Frequency { Frequency(Label("C2"), 65.40639, 36) }
  function DFlat2(): Frequency { Frequency(Label("C♯/D♭2"), 69.29566, 37) }
  function CSharp2(): Frequency { DFlat2() }
  function D2(): Frequency { Frequency(Label("D2"), 73.41619, 38) }
  function DSharp2(): Frequency { Frequency(Label("E♭/D♯2"), 77.78175, 39) }
  function EFlat2(): Frequency { DSharp2() }
  function E2(): Frequency { Frequency(Label("E2"), 82.40689, 40) }
  function F2(): Frequency { Frequency(Label("F2"), 87.30706, 41) }
  function GFlat2(): Frequency { Frequency(Label("F♯/G♭2"), 92.49861, 42) }
  function FSharp2(): Frequency { GFlat2() }
  function G2(): Frequency { Frequency(Label("G2"), 97.99886, 43) }
  function GSharp2(): Frequency { Frequency(Label("A♭/G♯2"), 103.8262, 44) }
  function AFlat2(): Frequency { GSharp2() }
  function A2(): Frequency { Frequency(Label("A2"), 110.0000, 45) }
  function ASharp2(): Frequency { Frequency(Label("B♭/A♯2"), 116.5409, 46) }
  function BFlat2(): Frequency { ASharp2() }
  function B2(): Frequency { Frequency(Label("B2"), 123.4708, 47) }
  function C3(): Frequency { Frequency(Label("C3"), 130.8128, 48) }
  function DFlat3(): Frequency { Frequency(Label("C♯/D♭3"), 138.5913, 49) }
  function CSharp3(): Frequency { DFlat3() }
  function D3(): Frequency { Frequency(Label("D3"), 146.8324, 50) }
  function DSharp3(): Frequency { Frequency(Label("E♭/D♯3"), 155.5635, 51) }
  function EFlat3(): Frequency { DSharp3() }
  function E3(): Frequency { Frequency(Label("E3"), 164.8138, 52) }
  function F3(): Frequency { Frequency(Label("F3"), 174.6141, 53) }
  function GFlat3(): Frequency { Frequency(Label("F♯/G♭3"), 184.9972, 54) }
  function FSharp3(): Frequency { GFlat3() }
  function G3(): Frequency { Frequency(Label("G3"), 195.9977, 55) }
  function GSharp3(): Frequency { Frequency(Label("A♭/G♯3"), 207.6523, 56) }
  function AFlat3(): Frequency { GSharp3() }
  function A3(): Frequency { Frequency(Label("A3"), 220.0000, 57) }
  function ASharp3(): Frequency { Frequency(Label("B♭/A♯3"), 233.0819, 58) }
  function BFlat3(): Frequency { ASharp3() }
  function B3(): Frequency { Frequency(Label("B3"), 246.9417, 59) }
  function C4(): Frequency { Frequency(Label("C4"), 261.6256, 60) }
  function DFlat4(): Frequency { Frequency(Label("C♯/D♭4"), 277.1826, 61) }
  function CSharp4(): Frequency { DFlat4() }
  function D4(): Frequency { Frequency(Label("D4"), 293.6648, 62) }
  function DSharp4(): Frequency { Frequency(Label("E♭/D♯4"), 311.1270, 63) }
  function EFlat4(): Frequency { DSharp4() }
  function E4(): Frequency { Frequency(Label("E4"), 329.6276, 64) }
  function F4(): Frequency { Frequency(Label("F4"), 349.2282, 65) }
  function GFlat4(): Frequency { Frequency(Label("F♯/G♭4"), 369.9944, 66) }
  function FSharp4(): Frequency { GFlat4() }
  function G4(): Frequency { Frequency(Label("G4"), 391.9954, 67) }
  function GSharp4(): Frequency { Frequency(Label("A♭/G♯4"), 415.3047, 68) }
  function AFlat4(): Frequency { GSharp4() }
  function A4(): Frequency { Frequency(Label("A4"), 440.0000, 69) }
  function ASharp4(): Frequency { Frequency(Label("B♭/A♯4"), 466.1638, 70) }
  function BFlat4(): Frequency { ASharp4() }
  function B4(): Frequency { Frequency(Label("B4"), 493.8833, 71) }
  function C5(): Frequency { Frequency(Label("C5"), 523.2511, 72) }
  function DFlat5(): Frequency { Frequency(Label("C♯/D♭5"), 554.3653, 73) }
  function CSharp5(): Frequency { DFlat5() }
  function D5(): Frequency { Frequency(Label("D5"), 587.3295, 74) }
  function DSharp5(): Frequency { Frequency(Label("E♭/D♯5"), 622.2540, 75) }
  function EFlat5(): Frequency { DSharp5() }
  function E5(): Frequency { Frequency(Label("E5"), 659.2551, 76) }
  function F5(): Frequency { Frequency(Label("F5"), 698.4565, 77) }
  function GFlat5(): Frequency { Frequency(Label("F♯/G♭5"), 739.9888, 78) }
  function FSharp5(): Frequency { GFlat5() }
  function G5(): Frequency { Frequency(Label("G5"), 783.9909, 79) }
  function GSharp5(): Frequency { Frequency(Label("A♭/G♯5"), 830.6094, 80) }
  function AFlat5(): Frequency { GSharp5() }
  function A5(): Frequency { Frequency(Label("A5"), 880.0000, 81) }
  function ASharp5(): Frequency { Frequency(Label("B♭/A♯5"), 932.3275, 82) }
  function BFlat5(): Frequency { ASharp5() }
  function B5(): Frequency { Frequency(Label("B5"), 987.7666, 83) }
  function C6(): Frequency { Frequency(Label("C6"), 1046.502, 84) }
  function DFlat6(): Frequency { Frequency(Label("C♯/D♭6"), 1108.731, 85) }
  function CSharp6(): Frequency { DFlat6() }
  function D6(): Frequency { Frequency(Label("D6"), 1174.659, 86) }
  function DSharp6(): Frequency { Frequency(Label("E♭/D♯6"), 1244.508, 87) }
  function EFlat6(): Frequency { DSharp6() }
  function E6(): Frequency { Frequency(Label("E6"), 1318.510, 88) }
  function F6(): Frequency { Frequency(Label("F6"), 1396.913, 89) }
  function GFlat6(): Frequency { Frequency(Label("F♯/G♭6"), 1479.978, 90) }
  function FSharp6(): Frequency { GFlat6() }
  function G6(): Frequency { Frequency(Label("G6"), 1567.982, 91) }
  function GSharp6(): Frequency { Frequency(Label("A♭/G♯6"), 1661.219, 92) }
  function AFlat6(): Frequency { GSharp6() }
  function A6(): Frequency { Frequency(Label("A6"), 1760.000, 93) }
  function ASharp6(): Frequency { Frequency(Label("B♭/A♯6"), 1864.655, 94) }
  function BFlat6(): Frequency { ASharp6() }
  function B6(): Frequency { Frequency(Label("B6"), 1975.533, 95) }
  function C7(): Frequency { Frequency(Label("C7"), 2093.005, 96) }
  function DFlat7(): Frequency { Frequency(Label("C♯/D♭7"), 2217.461, 97) }
  function CSharp7(): Frequency { DFlat7() }
  function D7(): Frequency { Frequency(Label("D7"), 2349.318, 98) }
  function DSharp7(): Frequency { Frequency(Label("E♭/D♯7"), 2489.016, 99) }
  function EFlat7(): Frequency { DSharp7() }
  function E7(): Frequency { Frequency(Label("E7"), 2637.020, 100) }
  function F7(): Frequency { Frequency(Label("F7"), 2793.826, 101) }
  function GFlat7(): Frequency { Frequency(Label("F♯/G♭7"), 2959.955, 102) }
  function FSharp7(): Frequency { GFlat7() }
  function G7(): Frequency { Frequency(Label("G7"), 3135.963, 103) }
  function GSharp7(): Frequency { Frequency(Label("A♭/G♯7"), 3322.438, 104) }
  function AFlat7(): Frequency { GSharp7() }
  function A7(): Frequency { Frequency(Label("A7"), 3520.000, 105) }
  function ASharp7(): Frequency { Frequency(Label("B♭/A♯7"), 3729.310, 106) }
  function BFlat7(): Frequency { ASharp7() }
  function B7(): Frequency { Frequency(Label("B7"), 3951.066, 107) }
  function C8(): Frequency { Frequency(Label("C8"), 4186.009, 108) }
  function DFlat8(): Frequency { Frequency(Label("C♯/D♭8"), 4434.922, 109) }
  function CSharp8(): Frequency { DFlat8() }
  function D8(): Frequency { Frequency(Label("D8"), 4698.636, 110) }
  function DSharp8(): Frequency { Frequency(Label("E♭/D♯8"), 4978.032, 111) }
  function EFlat8(): Frequency { DSharp8() }
  function E8(): Frequency { Frequency(Label("E8"), 5274.041, 112) }
  function F8(): Frequency { Frequency(Label("F8"), 5587.652, 113) }
  function GFlat8(): Frequency { Frequency(Label("F♯/G♭8"), 5919.911, 114) }
  function FSharp8(): Frequency { GFlat8() }
  function G8(): Frequency { Frequency(Label("G8"), 6271.927, 115) }
  function GSharp8(): Frequency { Frequency(Label("A♭/G♯8"), 6644.875, 116) }
  function AFlat8(): Frequency { GSharp8() }
  function A8(): Frequency { Frequency(Label("A8"), 7040.000, 117) }
  function ASharp8(): Frequency { Frequency(Label("B♭/A♯8"), 7458.620, 118) }
  function BFlat8(): Frequency { ASharp8() }
  function B8(): Frequency { Frequency(Label("B8"), 7902.133, 119) }
  function C9(): Frequency { Frequency(Label("C9"), 8372.018, 120) }
  function DFlat9(): Frequency { Frequency(Label("C♯/D♭9"), 8869.844, 121) }
  function CSharp9(): Frequency { DFlat9() }
  function D9(): Frequency { Frequency(Label("D9"), 9397.273, 122) }
  function DSharp9(): Frequency { Frequency(Label("E♭/D♯9"), 9956.063, 123) }
  function EFlat9(): Frequency { DSharp9() }
  function E9(): Frequency { Frequency(Label("E9"), 10548.08, 124) }
  function F9(): Frequency { Frequency(Label("F9"), 11175.30, 125) }
  function GFlat9(): Frequency { Frequency(Label("F♯/G♭9"), 11839.82, 126) }
  function FSharp9(): Frequency { GFlat9() }
  function G9(): Frequency { Frequency(Label("G9"), 12543.85, 127) }
  function GSharp9(): Frequency { Frequency(Label("A♭/G♯9"), 13289.75, UnknownMidiId) }
  function AFlat9(): Frequency { GSharp9() }
  function A9(): Frequency { Frequency(Label("A9"), 14080.00, UnknownMidiId) }
  function ASharp9(): Frequency { Frequency(Label("B♭/A♯9"), 14917.24, UnknownMidiId) }
  function BFlat9(): Frequency { ASharp9() }
  function B9(): Frequency { Frequency(Label("B9"), 15804.27, UnknownMidiId) }
  function C10(): Frequency { Frequency(Label("C10"), 16744.04, UnknownMidiId) }
  function DFlat10(): Frequency { Frequency(Label("C♯/D♭10"), 17739.69, UnknownMidiId) }
  function CSharp10(): Frequency { DFlat10() }
  function D10(): Frequency { Frequency(Label("D10"), 18794.55, UnknownMidiId) }
  function DSharp10(): Frequency { Frequency(Label("E♭/D♯10"), 19912.13, UnknownMidiId) }
  function EFlat10(): Frequency { DSharp10() }
  function E10(): Frequency { Frequency(Label("E10"), 21096.16, UnknownMidiId) }
  function F10(): Frequency { Frequency(Label("F10"), 22350.61, UnknownMidiId) }
  function GFlat10(): Frequency { Frequency(Label("F♯/G♭10"), 23679.64, UnknownMidiId) }
  function FSharp10(): Frequency { GFlat10() }
  function G10(): Frequency { Frequency(Label("G10"), 25087.71, UnknownMidiId) }
  function GSharp10(): Frequency { Frequency(Label("A♭/G♯10"), 26579.50, UnknownMidiId) }
  function AFlat10(): Frequency { GSharp10() }
  function A10(): Frequency { Frequency(Label("A10"), 28160.00, UnknownMidiId) }
  function ASharp10(): Frequency { Frequency(Label("B♭/A♯10"), 29834.48, UnknownMidiId) }
  function BFlat10(): Frequency { ASharp10() }
  function B10(): Frequency { Frequency(Label("B10"), 31608.53, UnknownMidiId) }

  /** One line of the `knownFrequencies` literal: the twelve pitches of octave `o`. */
  function Octave(o: int): seq<Frequency>
    requires -1 <= o <= 10
  {
    if o == -1 then [CMinus1(), DFlatMinus1(), DMinus1(), DSharpMinus1(), EMinus1(), FMinus1(), GFlatMinus1(), GMinus1(), GSharpMinus1(), AMinus1(), ASharpMinus1(), BMinus1()]
    else if o == 0 then [C0(), DFlat0(), D0(), DSharp0(), E0(), F0(), GFlat0(), G0(), GSharp0(), A0(), ASharp0(), B0()]
    else if o == 1 then [C1(), DFlat1(), D1(), DSharp1(), E1(), F1(), GFlat1(), G1(), GSharp1(), A1(), ASharp1(), B1()]
    else if o == 2 then [C2(), DFlat2(), D2(), DSharp2(), E2(), F2(), GFlat2(), G2(), GSharp2(), A2(), ASharp2(), B2()]
    else if o == 3 then [C3(), DFlat3(), D3(), DSharp3(), E3(), F3(), GFlat3(), G3(), GSharp3(), A3(), ASharp3(), B3()]
    else if o == 4 then [C4(), DFlat4(), D4(), DSharp4(), E4(), F4(), GFlat4(), G4(), GSharp4(), A4(), ASharp4(), B4()]
    else if o == 5 then [C5(), DFlat5(), D5(), DSharp5(), E5(), F5(), GFlat5(), G5(), GSharp5(), A5(), ASharp5(), B5()]
    else if o == 6 then [C6(), DFlat6(), D6(), DSharp6(), E6(), F6(), GFlat6(), G6(), GSharp6(), A6(), ASharp6(), B6()]
    else if o == 7 then [C7(), DFlat7(), D7(), DSharp7(), E7(), F7(), GFlat7(), G7(), GSharp7(), A7(), ASharp7(), B7()]
    else if o == 8 then [C8(), DFlat8(), D8(), DSharp8(), E8(), F8(), GFlat8(), G8(), GSharp8(), A8(), ASharp8(), B8()]
    else if o == 9 then [C9(), DFlat9(), D9(), DSharp9(), E9(), F9(), GFlat9(), G9(), GSharp9(), A9(), ASharp9(), B9()]
    else [C10(), DFlat10(), D10(), DSharp10(), E10(), F10(), GFlat10(), G10(), GSharp10(), A10(), ASharp10(), B10()]
  }

  /** `knownFrequencies`: the octave lines -1 … 10 of the literal, in order. */
  const Table: seq<Frequency> := OctavesFrom(-1)

  /** The octave lines from `o` up to octave 10. */
  function OctavesFrom(o: int): seq<Frequency>
    requires -1 <= o <= 11
    decreases 11 - o
  {
    if o == 11 then [] else Octave(o) + OctavesFrom(o + 1)
  }

  /** Each octave line on its own: twelve pitches rising in Hz, numbered
      from 12*(o+1), the first above 0 Hz. */
  lemma OctaveLineMinus1()
    ensures |Octave(-1)| == 12 && Octave(-1)[0].hz > 0.0
    ensures MidiNumbered(Octave(-1), 0) && AdjacentIncreasing(Octave(-1))
  {
  }

  lemma OctaveLine0()
    ensures |Octave(0)| == 12 && Octave(0)[0].hz > 0.0
    ensures MidiNumbered(Octave(0), 12) && AdjacentIncreasing(Octave(0))
  {
  }

  lemma OctaveLine1()
    ensures |Octave(1)| == 12 && Octave(1)[0].hz > 0.0
    ensures MidiNumbered(Octave(1), 24) && AdjacentIncreasing(Octave(1))
  {
  }

  lemma OctaveLine2()
    ensures |Octave(2)| == 12 && Octave(2)[0].hz > 0.0
    ensures MidiNumbered(Octave(2), 36) && AdjacentIncreasing(Octave(2))
  {
  }

  lemma OctaveLine3()
    ensures |Octave(3)| == 12 && Octave(3)[0].hz > 0.0
    ensures MidiNumbered(Octave(3), 48) && AdjacentIncreasing(Octave(3))
  {
  }

  lemma OctaveLine4()
    ensures |Octave(4)| == 12 && Octave(4)[0].hz > 0.0
    ensures MidiNumbered(Octave(4), 60) && AdjacentIncreasing(Octave(4))
  {
  }

  lemma OctaveLine5()
    ensures |Octave(5)| == 12 && Octave(5)[0].hz > 0.0
    ensures MidiNumbered(Octave(5), 72) && AdjacentIncreasing(Octave(5))
  {
  }

  lemma OctaveLine6()
    ensures |Octave(6)| == 12 && Octave(6)[0].hz > 0.0
    ensures MidiNumbered(Octave(6), 84) && AdjacentIncreasing(Octave(6))
  {
  }

  lemma OctaveLine7()
    ensures |Octave(7)| == 12 && Octave(7)[0].hz > 0.0
    ensures MidiNumbered(Octave(7), 96) && AdjacentIncreasing(Octave(7))
  {
  }

  lemma OctaveLine8()
    ensures |Octave(8)| == 12 && Octave(8)[0].hz > 0.0
    ensures MidiNumbered(Octave(8), 108) && AdjacentIncreasing(Octave(8))
  {
  }

  lemma OctaveLine9()
    ensures |Octave(9)| == 12 && Octave(9)[0].hz > 0.0
    ensures MidiNumbered(Octave(9), 120) && AdjacentIncreasing(Octave(9))
  {
  }

  lemma OctaveLine10()
    ensures |Octave(10)| == 12 && Octave(10)[0].hz > 0.0
    ensures MidiNumbered(Octave(10), 132) && AdjacentIncreasing(Octave(10))
  {
  }

  /** Joining an octave line onto the lines above it keeps the table facts. */
  lemma JoinLines(a: seq<Frequency>, b: seq<Frequency>, offset: int)
    requires |a| == 12 && Increasing(a) && MidiNumbered(a, offset)
    requires Increasing(b) && MidiNumbered(b, offset + 12)
    requires |b| > 0 ==> a[11].hz < b[0].hz
    ensures |a + b| == 12 + |b| && (a + b)[0] == a[0]
    ensures Increasing(a + b) && MidiNumbered(a + b, offset)
  {
    if |b| > 0 {
      ConcatIncreasing(a, b);
    } else {
      assert a + b == a;
    }
    ConcatMidiNumbered(a, b, offset);
  }

  /** The octave lines from `o` on: 12 pitches per line, rising in Hz,
      numbered from 12*(o+1), starting with the first pitch of line `o`. */
  lemma LinesFrom10()
    ensures |OctavesFrom(10)| == 12 && Increasing(OctavesFrom(10))
    ensures MidiNumbered(OctavesFrom(10), 132) && OctavesFrom(10)[0] == Octave(10)[0]
  {
    OctaveLine10();
    AdjacentToIncreasing(Octave(10));
    JoinLines(Octave(10), [], 132);
  }

  lemma LinesFrom9()
    ensures |OctavesFrom(9)| == 24 && Increasing(OctavesFrom(9))
    ensures MidiNumbered(OctavesFrom(9), 120) && OctavesFrom(9)[0] == Octave(9)[0]
  {
    OctaveLine9();
    AdjacentToIncreasing(Octave(9));
    LinesFrom10();
    assert Octave(9)[11].hz < Octave(10)[0].hz;
    JoinLines(Octave(9), OctavesFrom(10), 120);
  }

  lemma LinesFrom8()
    ensures |OctavesFrom(8)| == 36 && Increasing(OctavesFrom(8))
    ensures MidiNumbered(OctavesFrom(8), 108) && OctavesFrom(8)[0] == Octave(8)[0]
  {
    OctaveLine8();
    AdjacentToIncreasing(Octave(8));
    LinesFrom9();
    assert Octave(8)[11].hz < Octave(9)[0].hz;
    JoinLines(Octave(8), OctavesFrom(9), 108);
  }

  lemma LinesFrom7()
    ensures |OctavesFrom(7)| == 48 && Increasing(OctavesFrom(7))
    ensures MidiNumbered(OctavesFrom(7), 96) && OctavesFrom(7)[0] == Octave(7)[0]
  {
    OctaveLine7();
    AdjacentToIncreasing(Octave(7));
    LinesFrom8();
    assert Octave(7)[11].hz < Octave(8)[0].hz;
    JoinLines(Octave(7), OctavesFrom(8), 96);
  }

  lemma LinesFrom6()
    ensures |OctavesFrom(6)| == 60 && Increasing(OctavesFrom(6))
    ensures MidiNumbered(OctavesFrom(6), 84) && OctavesFrom(6)[0] == Octave(6)[0]
  {
    OctaveLine6();
    AdjacentToIncreasing(Octave(6));
    LinesFrom7();
    assert Octave(6)[11].hz < Octave(7)[0].hz;
    JoinLines(Octave(6), OctavesFrom(7), 84);
  }

  lemma LinesFrom5()
    ensures |OctavesFrom(5)| == 72 && Increasing(OctavesFrom(5))
    ensures MidiNumbered(OctavesFrom(5), 72) && OctavesFrom(5)[0] == Octave(5)[0]
  {
    OctaveLine5();
    AdjacentToIncreasing(Octave(5));
    LinesFrom6();
    assert Octave(5)[11].hz < Octave(6)[0].hz;
    JoinLines(Octave(5), OctavesFrom(6), 72);
  }

  lemma LinesFrom4()
    ensures |OctavesFrom(4)| == 84 && Increasing(OctavesFrom(4))
    ensures MidiNumbered(OctavesFrom(4), 60) && OctavesFrom(4)[0] == Octave(4)[0]
  {
    OctaveLine4();
    AdjacentToIncreasing(Octave(4));
    LinesFrom5();
    assert Octave(4)[11].hz < Octave(5)[0].hz;
    JoinLines(Octave(4), OctavesFrom(5), 60);
  }

  lemma LinesFrom3()
    ensures |OctavesFrom(3)| == 96 && Increasing(OctavesFrom(3))
    ensures MidiNumbered(OctavesFrom(3), 48) && OctavesFrom(3)[0] == Octave(3)[0]
  {
    OctaveLine3();
    AdjacentToIncreasing(Octave(3));
    LinesFrom4();
    assert Octave(3)[11].hz < Octave(4)[0].hz;
    JoinLines(Octave(3), OctavesFrom(4), 48);
  }

  lemma LinesFrom2()
    ensures |OctavesFrom(2)| == 108 && Increasing(OctavesFrom(2))
    ensures MidiNumbered(OctavesFrom(2), 36) && OctavesFrom(2)[0] == Octave(2)[0]
  {
    OctaveLine2();
    AdjacentToIncreasing(Octave(2));
    LinesFrom3();
    assert Octave(2)[11].hz < Octave(3)[0].hz;
    JoinLines(Octave(2), OctavesFrom(3), 36);
  }

  lemma LinesFrom1()
    ensures |OctavesFrom(1)| == 120 && Increasing(OctavesFrom(1))
    ensures MidiNumbered(OctavesFrom(1), 24) && OctavesFrom(1)[0] == Octave(1)[0]
  {
    OctaveLine1();
    AdjacentToIncreasing(Octave(1));
    LinesFrom2();
    assert Octave(1)[11].hz < Octave(2)[0].hz;
    JoinLines(Octave(1), OctavesFrom(2), 24);
  }

  lemma LinesFrom0()
    ensures |OctavesFrom(0)| == 132 && Increasing(OctavesFrom(0))
    ensures MidiNumbered(OctavesFrom(0), 12) && OctavesFrom(0)[0] == Octave(0)[0]
  {
    OctaveLine0();
    AdjacentToIncreasing(Octave(0));
    LinesFrom1();
    assert Octave(0)[11].hz < Octave(1)[0].hz;
    JoinLines(Octave(0), OctavesFrom(1), 12);
  }

  lemma LinesFromMinus1()
    ensures |OctavesFrom(-1)| == 144 && Increasing(OctavesFrom(-1))
    ensures MidiNumbered(OctavesFrom(-1), 0) && OctavesFrom(-1)[0] == Octave(-1)[0]
  {
    OctaveLineMinus1();
    AdjacentToIncreasing(Octave(-1));
    LinesFrom0();
    assert Octave(-1)[11].hz < Octave(0)[0].hz;
    JoinLines(Octave(-1), OctavesFrom(0), 0);
  }

  /** The table lists 144 pitches, C-1 to B10, strictly rising in Hz; an
      entry's midi id is its index for C-1 … G9 (0 … 127) and unknown from
      G♯9 on; every table pitch is above 0 Hz. */
  lemma TableFacts()
    ensures |Table| == 144
    ensures Table[0] == CMinus1() && Increasing(Table)
    ensures forall i :: 0 <= i < |Table| ==> Table[i].midiId == (if i < 128 then i else UnknownMidiId)
    ensures forall i :: 0 <= i < |Table| ==> Table[i].hz > 0.0
  {
    LinesFromMinus1();
    forall i | 0 <= i < |Table| ensures Table[i].hz > 0.0 {
      assert Table[0].hz <= Table[i].hz by { if i > 0 {} }
    }
  }

  /** Silence is 0 Hz with no midi id, and no table entry. */
  lemma SilenceNotInTable()
    ensures Silence().hz == 0.0 && Silence().midiId == UnknownMidiId
    ensures Silence() !in Table
    ensures Silence().hz !in HzIndex(Table)
  {
    TableFacts();
    HzIndexInverts(Table);
    HzIndexKeys(Table);
  }

  /** Each sharp shares its record with the flat of the same key, as the
      alias functions promise. */
  lemma EnharmonicAliases()
    ensures CSharpMinus1() == DFlatMinus1()
    ensures EFlatMinus1() == DSharpMinus1()
    ensures FSharpMinus1() == GFlatMinus1()
    ensures AFlatMinus1() == GSharpMinus1()
    ensures BFlatMinus1() == ASharpMinus1()
    ensures CSharp0() == DFlat0()
    ensures EFlat0() == DSharp0()
    ensures FSharp0() == GFlat0()
    ensures AFlat0() == GSharp0()
    ensures BFlat0() == ASharp0()
    ensures CSharp1() == DFlat1()
    ensures EFlat1() == DSharp1()
    ensures FSharp1() == GFlat1()
    ensures AFlat1() == GSharp1()
    ensures BFlat1() == ASharp1()
    ensures CSharp2() == DFlat2()
    ensures EFlat2() == DSharp2()
    ensures FSharp2() == GFlat2()
    ensures AFlat2() == GSharp2()
    ensures BFlat2() == ASharp2()
    ensures CSharp3() == DFlat3()
    ensures EFlat3() == DSharp3()
    ensures FSharp3() == GFlat3()
    ensures AFlat3() == GSharp3()
    ensures BFlat3() == ASharp3()
    ensures CSharp4() == DFlat4()
    ensures EFlat4() == DSharp4()
    ensures FSharp4() == GFlat4()
    ensures AFlat4() == GSharp4()
    ensures BFlat4() == ASharp4()
    ensures CSharp5() == DFlat5()
    ensures EFlat5() == DSharp5()
    ensures FSharp5() == GFlat5()
    ensures AFlat5() == GSharp5()
    ensures BFlat5() == ASharp5()
    ensures CSharp6() == DFlat6()
    ensures EFlat6() == DSharp6()
    ensures FSharp6() == GFlat6()
    ensures AFlat6() == GSharp6()
    ensures BFlat6() == ASharp6()
    ensures CSharp7() == DFlat7()
    ensures EFlat7() == DSharp7()
    ensures FSharp7() == GFlat7()
    ensures AFlat7() == GSharp7()
    ensures BFlat7() == ASharp7()
    ensures CSharp8() == DFlat8()
    ensures EFlat8() == DSharp8()
    ensures FSharp8() == GFlat8()
    ensures AFlat8() == GSharp8()
    ensures BFlat8() == ASharp8()
    ensures CSharp9() == DFlat9()
    ensures EFlat9() == DSharp9()
    ensures FSharp9() == GFlat9()
    ensures AFlat9() == GSharp9()
    ensures BFlat9() == ASharp9()
    ensures CSharp10() == DFlat10()
    ensures EFlat10() == DSharp10()
    ensures FSharp10() == GFlat10()
    ensures AFlat10() == GSharp10()
    ensures BFlat10() == ASharp10()
  {
  }

  /** `initKnownFrequencyIndexes`: maps each table Hz to its own index. */
  method InitKnownFrequencyIndexes() returns (m: map<real, int>)
    ensures m.Keys == set k | 0 <= k < |Table| :: Table[k].hz
    ensures forall k :: 0 <= k < |Table| ==> m[Table[k].hz] == k
  {
    m := IndexByHz(Table);
    TableFacts();
    HzIndexInverts(Table);
    HzIndexKeys(Table);
  }

  /** `GetRange`: nil unless both endpoints are table entries; otherwise a
      fresh copy of the inclusive run from `from` to `to`, reversed when
      `from` is the higher one. */
  method GetRange(from: Frequency, to: Frequency) returns (r: Option<seq<Frequency>>)
    ensures r.None? <==> from !in Table || to !in Table
    ensures r.Some? ==> IsRange(Table, from, to, r.value)
    ensures r.Some? && from.hz <= to.hz ==> Increasing(r.value)
    ensures r.Some? && from.hz > to.hz ==>
      forall k :: 0 <= k < |r.value| - 1 ==> r.value[k].hz > r.value[k + 1].hz
  {
    r := RangeOf(Table, from, to);
    if r.Some? {
      TableFacts();
      SpanIsRange(Table, from, to);
      RangeMonotone(Table, from, to);
    }
  }
}
