/** frequency.go: the revision of the frequencies package that keeps its
    pitches in package variables. Every operation here reads the package
    table `frequencies` and its Hz index `frequencyIndexes`; the model takes
    that table as the parameter `table` and computes the index from it with
    `HzIndex`, exactly as `initFrequencyIndexes` fills it. The package's own
    table holds the same 144 records as known_frequencies.go (same Hz values,
    midi ids and order), and `KnownFrequencies.TableFacts` proves that table
    meets the one assumption the lemmas below make of `table`: it rises
    strictly in Hz. */
module Frequencies {
  import opened Common
  import opened Pitch
  import KnownFrequencies

  /** `hz` is the Hz value of some entry of `table`. */
  ghost predicate HzIn(table: seq<Frequency>, hz: real)
  {
    exists i :: 0 <= i < |table| && table[i].hz == hz
  }

  /** The package table satisfies what the lemmas below assume. */
  lemma PackageTableRises()
    ensures |KnownFrequencies.Table| == 144 && Increasing(KnownFrequencies.Table)
  {
    KnownFrequencies.TableFacts();
  }

  /** `initFrequencyIndexes`: one pass over the table recording each Hz
      value's index. For a table rising in Hz the map knows exactly the
      table's Hz values and sends each back to the index of its entry. */
  method InitFrequencyIndexes(table: seq<Frequency>) returns (m: map<real, int>)
    requires Increasing(table)
    ensures m == HzIndex(table)
    ensures forall hz :: hz in m <==> HzIn(table, hz)
    ensures forall i :: 0 <= i < |table| ==> table[i].hz in m && m[table[i].hz] == i
  {
    m := IndexByHz(table);
    HzIndexInverts(table);
    forall hz | hz in m ensures HzIn(table, hz) {
      HzIndexSound(table, hz);
    }
  }

  /** `New`: the table's own entry when `hz` is one of its Hz values,
      otherwise a fresh pitch named after its Hz value with no midi id. */
  function New(table: seq<Frequency>, hz: real): (r: Frequency)
    ensures r.hz == hz
  {
    if hz in HzIndex(table) then
      HzIndexSound(table, hz);
      table[HzIndex(table)[hz]]
    else
      Frequency(HzLabel(hz), hz, UnknownMidiId)
  }

  /** What `New` returns, case by case: a known Hz gives its table entry, an
      unknown one a pitch named "<hz>Hz" with the unknown midi id. */
  lemma NewCases(table: seq<Frequency>, hz: real)
    requires Increasing(table)
    ensures forall i :: 0 <= i < |table| && table[i].hz == hz ==> New(table, hz) == table[i]
    ensures !HzIn(table, hz) ==> New(table, hz) == Frequency(HzLabel(hz), hz, UnknownMidiId)
    ensures HzIn(table, hz) ==> New(table, hz) in table
  {
    HzIndexInverts(table);
    if hz in HzIndex(table) {
      HzIndexSound(table, hz);
    }
  }

  /** `shiftSemitone`: the Hz value moved by the formula
      hz * semitoneMultiplier^n and snapped back through `New`.
      `semitonePow(n)` stands for math.Pow(semitoneMultiplier, n), i.e.
      2^(n/12). */
  function ShiftHz(table: seq<Frequency>, hz: real, n: int, semitonePow: int -> real): (r: Frequency)
    ensures r.hz == hz * semitonePow(n)
  {
    New(table, hz * semitonePow(n))
  }

  /** `frequency.ShiftSemitone`: a known Hz whose target index lies on the
      table moves by index arithmetic; anything else goes through the
      formula. */
  function ShiftSemitone(table: seq<Frequency>, f: Frequency, n: int, semitonePow: int -> real): (r: Frequency)
    ensures r in table || r.hz == f.hz * semitonePow(n)
  {
    if f.hz !in HzIndex(table) then ShiftHz(table, f.hz, n, semitonePow)
    else
      var newIndex := HzIndex(table)[f.hz] + n;
      if newIndex < 0 || newIndex >= |table| then ShiftHz(table, f.hz, n, semitonePow)
      else table[newIndex]
  }

  /** `frequency.ShiftOctave`: twelve semitones per octave. */
  function ShiftOctave(table: seq<Frequency>, f: Frequency, k: int, semitonePow: int -> real): (r: Frequency)
    ensures r in table || r.hz == f.hz * semitonePow(k * 12)
  {
    ShiftSemitone(table, f, k * 12, semitonePow)
  }

  /** From the entry at index `i`, a shift to an index on the table lands on
      exactly that entry, whatever the formula would compute. */
  lemma ShiftOnTable(table: seq<Frequency>, i: int, n: int, semitonePow: int -> real)
    requires Increasing(table) && 0 <= i < |table| && 0 <= i + n < |table|
    ensures ShiftSemitone(table, table[i], n, semitonePow) == table[i + n]
  {
    HzIndexInverts(table);
  }

  /** A pitch whose Hz is not on the table, or a shift that leaves the table,
      goes through the formula: the result has the computed Hz and is the
      table entry there if there is one. */
  lemma ShiftOffTable(table: seq<Frequency>, f: Frequency, n: int, semitonePow: int -> real)
    requires Increasing(table)
    requires forall i :: 0 <= i < |table| && table[i].hz == f.hz ==> !(0 <= i + n < |table|)
    ensures ShiftSemitone(table, f, n, semitonePow) == ShiftHz(table, f.hz, n, semitonePow)
    ensures ShiftSemitone(table, f, n, semitonePow).hz == f.hz * semitonePow(n)
  {
    if f.hz in HzIndex(table) {
      HzIndexSound(table, f.hz);
    }
  }

  /** Shifting a table entry by 0 semitones gives the entry back. */
  lemma ShiftSemitoneZero(table: seq<Frequency>, f: Frequency, semitonePow: int -> real)
    requires Increasing(table) && f in table
    ensures ShiftSemitone(table, f, 0, semitonePow) == f
  {
    var i :| 0 <= i < |table| && table[i] == f;
    ShiftOnTable(table, i, 0, semitonePow);
  }

  /** Two shifts that stay on the table add up: n then m semitones is n + m. */
  lemma ShiftSemitoneCompose(table: seq<Frequency>, i: int, n: int, m: int, semitonePow: int -> real)
    requires Increasing(table) && 0 <= i < |table| && 0 <= i + n < |table| && 0 <= i + n + m < |table|
    ensures ShiftSemitone(table, ShiftSemitone(table, table[i], n, semitonePow), m, semitonePow)
         == ShiftSemitone(table, table[i], n + m, semitonePow)
  {
    ShiftOnTable(table, i, n, semitonePow);
    ShiftOnTable(table, i + n, m, semitonePow);
    ShiftOnTable(table, i, n + m, semitonePow);
  }

  /** Up `n` and back down `n` semitones from a table entry is the entry,
      whenever the intermediate index is on the table. */
  lemma ShiftSemitoneRoundTrip(table: seq<Frequency>, i: int, n: int, semitonePow: int -> real)
    requires Increasing(table) && 0 <= i < |table| && 0 <= i + n < |table|
    ensures ShiftSemitone(table, ShiftSemitone(table, table[i], n, semitonePow), -n, semitonePow) == table[i]
  {
    ShiftOnTable(table, i, n, semitonePow);
    ShiftOnTable(table, i + n, -n, semitonePow);
  }

  /** From a table entry an octave shift that stays on the table lands on
      the same note `k` octaves away, i.e. 12 * k entries along. */
  lemma ShiftOctaveOnTable(table: seq<Frequency>, i: int, k: int, semitonePow: int -> real)
    requires Increasing(table) && 0 <= i < |table| && 0 <= i + 12 * k < |table|
    ensures ShiftOctave(table, table[i], k, semitonePow) == table[i + 12 * k]
  {
    ShiftOnTable(table, i, k * 12, semitonePow);
  }

  /** `GetRange`: nil unless both endpoints are table entries; otherwise a
      fresh copy of the inclusive run between them, rising in Hz when `from`
      is the lower pitch and falling when it is the higher. */
  method GetRange(table: seq<Frequency>, from: Frequency, to: Frequency) returns (r: Option<seq<Frequency>>)
    requires Increasing(table)
    ensures r.None? <==> from !in table || to !in table
    ensures r.Some? ==> IsRange(table, from, to, r.value)
    ensures r.Some? && from.hz <= to.hz ==> Increasing(r.value)
    ensures r.Some? && from.hz > to.hz ==>
      forall k :: 0 <= k < |r.value| - 1 ==> r.value[k].hz > r.value[k + 1].hz
  {
    r := RangeOf(table, from, to);
    if r.Some? {
      SpanIsRange(table, from, to);
      RangeMonotone(table, from, to);
    }
  }
}
