/** The `frequency` record both revisions of the frequencies package share,
    and the table operations both revisions implement identically:
    `slices.Index` over a table, the Hz→index map the `init…Indexes`
    functions fill, and the copy-and-maybe-reverse of `GetRange`. */
module Pitch {
  import opened Common

  /** Midi id of a pitch that has none (G♯9 upward and every computed pitch). */
  const UnknownMidiId: int := -999

  /** A table pitch carries its printed name; a pitch computed from a Hz value
      is named by `fmt.Sprintf("%vHz", hz)`, which the model keeps symbolic
      as `HzLabel(hz)` rather than formatting the float. */
  datatype PitchName = Label(text: string) | HzLabel(hz: real)

  /** The `frequency` struct: name, Hz and midi id. */
  datatype Frequency = Frequency(name: PitchName, hz: real, midiId: int)

  /** Midi id that the table entry at index `i` carries. */
  function MidiFor(i: int): int
  {
    if 0 <= i < 128 then i else UnknownMidiId
  }

  ghost predicate Increasing(s: seq<Frequency>)
  {
    forall i, j :: 0 <= i < j < |s| ==> s[i].hz < s[j].hz
  }

  ghost predicate AdjacentIncreasing(s: seq<Frequency>)
  {
    forall i :: 0 <= i < |s| - 1 ==> s[i].hz < s[i + 1].hz
  }

  /** Each entry of `s` carries the midi id of its position `offset + k`. */
  ghost predicate MidiNumbered(s: seq<Frequency>, offset: int)
  {
    forall k :: 0 <= k < |s| ==> s[k].midiId == MidiFor(offset + k)
  }

  lemma {:induction false} AdjacentToIncreasing(s: seq<Frequency>)
    requires AdjacentIncreasing(s)
    ensures Increasing(s)
    decreases |s|
  {
    if |s| > 1 {
      AdjacentToIncreasing(s[1..]);
      forall i, j | 0 <= i < j < |s| ensures s[i].hz < s[j].hz {
        if i > 0 {
          assert s[i].hz == s[1..][i - 1].hz && s[j].hz == s[1..][j - 1].hz;
        } else if j > 1 {
          assert s[1].hz < s[j].hz by { assert s[1..][0] == s[1] && s[1..][j - 1] == s[j]; }
        }
      }
    }
  }

  lemma ConcatIncreasing(a: seq<Frequency>, b: seq<Frequency>)
    requires Increasing(a) && Increasing(b)
    requires |a| > 0 && |b| > 0 && a[|a| - 1].hz < b[0].hz
    ensures Increasing(a + b)
  {
    forall i, j | 0 <= i < j < |a + b| ensures (a + b)[i].hz < (a + b)[j].hz {
      if i < |a| && j >= |a| {
        assert a[i].hz <= a[|a| - 1].hz by { if i < |a| - 1 {} }
        assert b[0].hz <= b[j - |a|].hz by { if j > |a| {} }
      }
    }
  }

  lemma ConcatMidiNumbered(a: seq<Frequency>, b: seq<Frequency>, offset: int)
    requires MidiNumbered(a, offset) && MidiNumbered(b, offset + |a|)
    ensures MidiNumbered(a + b, offset)
  {
    forall k | 0 <= k < |a + b| ensures (a + b)[k].midiId == MidiFor(offset + k) {
      if k >= |a| {
        assert (a + b)[k] == b[k - |a|];
      }
    }
  }

  /** Position `i` is the first one of `s` that holds `f`. */
  predicate FirstAt(s: seq<Frequency>, f: Frequency, i: int)
  {
    0 <= i < |s| && s[i] == f && forall k :: 0 <= k < i ==> s[k] != f
  }

  /** A member of a sequence has a first position. */
  lemma {:induction false} FirstAtExists(s: seq<Frequency>, f: Frequency)
    requires f in s
    ensures exists i :: FirstAt(s, f, i)
    decreases |s|
  {
    if s[0] != f {
      assert f in s[1..];
      FirstAtExists(s[1..], f);
      var i :| FirstAt(s[1..], f, i);
      assert FirstAt(s, f, i + 1);
    } else {
      assert FirstAt(s, f, 0);
    }
  }

  /** `slices.Index`: the first position holding `f`, or -1. */
  function IndexOf(s: seq<Frequency>, f: Frequency): (r: int)
    ensures -1 <= r < |s|
    ensures r == -1 <==> f !in s
    ensures r >= 0 ==> s[r] == f && forall k :: 0 <= k < r ==> s[k] != f
  {
    if f in s then
      FirstAtExists(s, f);
      var i :| FirstAt(s, f, i);
      i
    else -1
  }

  /** In a table without repeated Hz values, an entry's index is its position. */
  lemma IndexOfIncreasing(s: seq<Frequency>, i: int)
    requires Increasing(s) && 0 <= i < |s|
    ensures IndexOf(s, s[i]) == i
  {
  }

  /** Hz → index map after the `for i, freq := range table` loop has seen
      every entry of `s`; a later entry with the same Hz overwrites. */
  function HzIndex(s: seq<Frequency>): map<real, int>
  {
    if |s| == 0 then map[] else HzIndex(s[..|s| - 1])[s[|s| - 1].hz := |s| - 1]
  }

  /** In a table rising in Hz the map sends each entry's Hz to its index. */
  lemma {:induction false} HzIndexInverts(s: seq<Frequency>)
    requires Increasing(s)
    ensures forall k :: 0 <= k < |s| ==> s[k].hz in HzIndex(s) && HzIndex(s)[s[k].hz] == k
    decreases |s|
  {
    if |s| > 0 {
      var p := s[..|s| - 1];
      assert Increasing(p);
      HzIndexInverts(p);
      forall k | 0 <= k < |s| - 1 ensures s[k].hz in HzIndex(s) && HzIndex(s)[s[k].hz] == k {
        assert s[k] == p[k];
        assert s[k].hz < s[|s| - 1].hz;
      }
    }
  }

  /** Every Hz the index map knows is the Hz of the entry at its index (the
      last such entry; in a table without repeats, the only one). */
  lemma {:induction false} HzIndexSound(s: seq<Frequency>, hz: real)
    requires hz in HzIndex(s)
    ensures 0 <= HzIndex(s)[hz] < |s| && s[HzIndex(s)[hz]].hz == hz
    decreases |s|
  {
    var p := s[..|s| - 1];
    if hz != s[|s| - 1].hz {
      HzIndexSound(p, hz);
      assert s[HzIndex(p)[hz]] == p[HzIndex(p)[hz]];
    }
  }

  /** The map is keyed by exactly the table's Hz values. */
  lemma HzIndexKeys(s: seq<Frequency>)
    requires Increasing(s)
    ensures HzIndex(s).Keys == set k | 0 <= k < |s| :: s[k].hz
  {
    HzIndexInverts(s);
    forall x | x in HzIndex(s) ensures x in set k | 0 <= k < |s| :: s[k].hz {
      HzIndexSound(s, x);
    }
  }

  /** The loop of `initFrequencyIndexes` / `initKnownFrequencyIndexes`. */
  method IndexByHz(table: seq<Frequency>) returns (m: map<real, int>)
    ensures m == HzIndex(table)
  {
    m := map[];
    for i := 0 to |table|
      invariant m == HzIndex(table[..i])
    {
      assert table[..i + 1][..i] == table[..i];
      m := m[table[i].hz := i];
    }
    assert table[..|table|] == table;
  }

  function Reversed<T>(s: seq<T>): (r: seq<T>)
    ensures |r| == |s|
  {
    if s == [] then [] else Reversed(s[1..]) + [s[0]]
  }

  lemma {:induction false} ReversedAt<T>(s: seq<T>, k: int)
    requires 0 <= k < |s|
    ensures Reversed(s)[k] == s[|s| - 1 - k]
    decreases |s|
  {
    if k < |s| - 1 {
      ReversedAt(s[1..], k);
    }
  }

  /** The inclusive run of `table` from index `i` to index `j`, in that
      direction: ascending when `i <= j`, descending otherwise. */
  function Span(table: seq<Frequency>, i: int, j: int): seq<Frequency>
    requires 0 <= i < |table| && 0 <= j < |table|
  {
    if i <= j then table[i..j + 1] else Reversed(table[j..i + 1])
  }

  /** The k-th entry of a span is k steps from `i` towards `j`. */
  lemma SpanAt(table: seq<Frequency>, i: int, j: int, k: int)
    requires 0 <= i < |table| && 0 <= j < |table|
    ensures |Span(table, i, j)| == (if i <= j then j - i else i - j) + 1
    ensures 0 <= k < |Span(table, i, j)| ==>
      Span(table, i, j)[k] == table[if i <= j then i + k else i - k]
  {
    if i > j && 0 <= k <= i - j {
      ReversedAt(table[j..i + 1], k);
    }
  }

  /** A span runs from entry `i` to entry `j`, each of its entries k steps
      from `i` towards `j`. */
  lemma SpanShape(table: seq<Frequency>, i: int, j: int)
    requires 0 <= i < |table| && 0 <= j < |table|
    ensures |Span(table, i, j)| == (if i <= j then j - i else i - j) + 1
    ensures Span(table, i, j)[0] == table[i]
    ensures Span(table, i, j)[|Span(table, i, j)| - 1] == table[j]
    ensures forall k :: 0 <= k < |Span(table, i, j)| ==>
      Span(table, i, j)[k] == table[if i <= j then i + k else i - k]
  {
    SpanAt(table, i, j, 0);
    SpanAt(table, i, j, |Span(table, i, j)| - 1);
    forall k | 0 <= k < |Span(table, i, j)|
      ensures Span(table, i, j)[k] == table[if i <= j then i + k else i - k]
    {
      SpanAt(table, i, j, k);
    }
  }

  /** Over a table rising in Hz, a span rises when it runs upward and falls
      when it runs downward. */
  lemma SpanMonotone(table: seq<Frequency>, i: int, j: int)
    requires Increasing(table) && 0 <= i < |table| && 0 <= j < |table|
    ensures i <= j <==> table[i].hz <= table[j].hz
    ensures i <= j ==> Increasing(Span(table, i, j))
    ensures i > j ==> forall k :: 0 <= k < |Span(table, i, j)| - 1 ==>
      Span(table, i, j)[k].hz > Span(table, i, j)[k + 1].hz
  {
    SpanShape(table, i, j);
    if i > j {
      forall k | 0 <= k < |Span(table, i, j)| - 1
        ensures Span(table, i, j)[k].hz > Span(table, i, j)[k + 1].hz
      {
        assert Span(table, i, j)[k] == table[i - k] && Span(table, i, j)[k + 1] == table[i - k - 1];
      }
    }
  }

  /** What a `GetRange` result is, in terms of the endpoints' indices. */
  ghost predicate IsRange(table: seq<Frequency>, from: Frequency, to: Frequency, r: seq<Frequency>)
  {
    var i, j := IndexOf(table, from), IndexOf(table, to);
    0 <= i && 0 <= j &&
    |r| == (if i <= j then j - i else i - j) + 1 &&
    r[0] == from && r[|r| - 1] == to &&
    (forall k :: 0 <= k < |r| ==> r[k] in table) &&
    (i <= j ==> r == table[i..j + 1]) &&
    (i > j ==> forall k :: 0 <= k < |r| ==> r[k] == table[i - k])
  }

  /** The span between two members' indices is their range. */
  lemma SpanIsRange(table: seq<Frequency>, from: Frequency, to: Frequency)
    requires from in table && to in table
    ensures IsRange(table, from, to, Span(table, IndexOf(table, from), IndexOf(table, to)))
  {
    var i, j := IndexOf(table, from), IndexOf(table, to);
    SpanShape(table, i, j);
  }

  /** Over a table rising in Hz, a range rises when `from` is the lower pitch
      and falls when it is the higher. */
  lemma RangeMonotone(table: seq<Frequency>, from: Frequency, to: Frequency)
    requires Increasing(table) && from in table && to in table
    ensures from.hz <= to.hz ==> Increasing(Span(table, IndexOf(table, from), IndexOf(table, to)))
    ensures from.hz > to.hz ==>
      var r := Span(table, IndexOf(table, from), IndexOf(table, to));
      forall k :: 0 <= k < |r| - 1 ==> r[k].hz > r[k + 1].hz
  {
    SpanMonotone(table, IndexOf(table, from), IndexOf(table, to));
  }

  /** The shared body of both `GetRange` functions: nil (None) when either
      endpoint is not in the table, else a fresh copy of the inclusive run,
      reversed in place when `from` lies above `to`. */
  method RangeOf(table: seq<Frequency>, from: Frequency, to: Frequency) returns (r: Option<seq<Frequency>>)
    ensures r.None? <==> from !in table || to !in table
    ensures r.Some? ==> r.value == Span(table, IndexOf(table, from), IndexOf(table, to))
  {
    var fromIndex := IndexOf(table, from);
    if fromIndex == -1 {
      return None;
    }
    var toIndex := IndexOf(table, to);
    if toIndex == -1 {
      return None;
    }
    var reverse := false;
    if fromIndex > toIndex {
      reverse := true;
      fromIndex, toIndex := toIndex, fromIndex;
    }
    var src := table[fromIndex..toIndex + 1];
    var dst := new Frequency[|src|](k requires 0 <= k < |src| => src[k]);
    if reverse {
      ReverseInPlace(dst);
      forall k | 0 <= k < |src| ensures dst[k] == Reversed(src)[k] {
        ReversedAt(src, k);
      }
    }
    r := Some(dst[..]);
  }

  /** `slices.Reverse` on the fresh copy. */
  method ReverseInPlace(a: array<Frequency>)
    modifies a
    ensures forall k :: 0 <= k < a.Length ==> a[k] == old(a[a.Length - 1 - k])
  {
    var n, i := a.Length, 0;
    while i < n / 2
      invariant 0 <= i <= n / 2
      invariant forall k :: 0 <= k < i ==> a[k] == old(a[n - 1 - k]) && a[n - 1 - k] == old(a[k])
      invariant forall k :: i <= k < n - i ==> a[k] == old(a[k])
    {
      a[i], a[n - 1 - i] := a[n - 1 - i], a[i];
      i := i + 1;
    }
  }
}
