/** streamers/chords/chords.go: the closed catalog of chord types, each a
    name, a symbol and the semitone offsets of its notes above the root, with
    nil-aware equality by semitone sequence. An absent chord (Go's nil
    `ChordType`) is `None`. */
module Chords {
  import opened Common

  datatype ChordType = ChordType(name: string, symbol: string, semitones: seq<int>)

  function Major(): ChordType { ChordType("Major", "M", [0, 4, 7]) }
  function Augmented(): ChordType { ChordType("Augmented", "aug", [0, 4, 8]) }
  /** Also known as sus or sus4. */
  function Fourth(): ChordType { ChordType("Forth", "4", [0, 5, 7]) }
  function Sixth(): ChordType { ChordType("Sixth", "6", [0, 4, 7, 9]) }
  /** Also known as the dominant seventh. */
  function Seventh(): ChordType { ChordType("Seventh", "7", [0, 4, 7, 10]) }
  function MajorSeventh(): ChordType { ChordType("Major Seventh", "maj7", [0, 4, 7, 11]) }
  function Minor(): ChordType { ChordType("Minor", "m", [0, 3, 7]) }
  function MinorSeventh(): ChordType { ChordType("Minor Seventh", "m7", [0, 3, 7, 10]) }
  function Diminished(): ChordType { ChordType("Diminished", "dim", [0, 3, 6]) }

  /** `ChordTypes`: the catalog in menu order. */
  function ChordTypes(): (r: seq<ChordType>)
    ensures |r| == 9
    ensures forall i :: 0 <= i < |r| ==> r[i].symbol == ["M", "m", "4", "6", "7", "maj7", "m7", "aug", "dim"][i]
  {
    [Major(), Minor(), Fourth(), Sixth(), Seventh(), MajorSeventh(), MinorSeventh(), Augmented(), Diminished()]
  }

  /** `Semitones`: a freshly allocated copy of the offsets, so writing into
      the result cannot reach the chord. */
  method Semitones(c: ChordType) returns (a: array<int>)
    ensures fresh(a)
    ensures a[..] == c.semitones
  {
    a := new int[|c.semitones|](i requires 0 <= i < |c.semitones| => c.semitones[i]);
  }

  /** `slices.Equal` on two int slices: same length, equal element by
      element, compared from the front. */
  function SlicesEqual(a: seq<int>, b: seq<int>): (r: bool)
    ensures r <==> |a| == |b| && forall i :: 0 <= i < |a| ==> a[i] == b[i]
  {
    if |a| != |b| then false
    else if |a| == 0 then true
    else a[0] == b[0] && SlicesEqual(a[1..], b[1..])
  }

  /** The `Equals` method: false against nil, otherwise true exactly when
      the two chords have the same semitone sequence. */
  function Equals(c: ChordType, other: Option<ChordType>): (r: bool)
    ensures r <==> other.Some? && c.semitones == other.value.semitones
  {
    other.Some? && SlicesEqual(c.semitones, other.value.semitones)
  }

  /** The package-level `Equals`: two nils are equal, a nil and a chord are
      not, and two chords are compared by their `Equals` method. */
  function EqualsNil(x: Option<ChordType>, y: Option<ChordType>): (r: bool)
    ensures r <==> (x.None? && y.None?) || (x.Some? && y.Some? && x.value.semitones == y.value.semitones)
  {
    if x.None? && y.None? then true
    else if x.None? || y.None? then false
    else Equals(x.value, y)
  }

  /** Nil-aware equality is an equivalence: reflexive, symmetric and
      transitive. */
  lemma EqualsNilEquivalence(x: Option<ChordType>, y: Option<ChordType>, z: Option<ChordType>)
    ensures EqualsNil(x, x)
    ensures EqualsNil(x, y) == EqualsNil(y, x)
    ensures EqualsNil(x, y) && EqualsNil(y, z) ==> EqualsNil(x, z)
  {
  }

  /** Each offset above the one before it. */
  predicate Climbs(s: seq<int>)
  {
    forall i :: 0 < i < |s| ==> s[i - 1] < s[i]
  }

  /** Climbing step by step is climbing throughout. */
  lemma {:induction false} ClimbsStrictly(s: seq<int>)
    requires Climbs(s)
    ensures forall i, j :: 0 <= i < j < |s| ==> s[i] < s[j]
    decreases |s|
  {
    if |s| > 1 {
      var front := s[..|s| - 1];
      assert Climbs(front);
      ClimbsStrictly(front);
      forall i | 0 <= i < |s| - 1
        ensures s[i] < s[|s| - 1]
      {
        assert front[i] == s[i];
        if i < |s| - 2 {
          assert front[i] < front[|s| - 2];
        }
      }
    }
  }

  /** Every catalog chord has at least three notes, starts on its root
      (semitone 0) and climbs strictly. */
  lemma CatalogShape()
    ensures forall c :: c in ChordTypes() ==>
      |c.semitones| >= 3 && c.semitones[0] == 0 &&
      forall i, j :: 0 <= i < j < |c.semitones| ==> c.semitones[i] < c.semitones[j]
  {
    var all := [Major(), Minor(), Fourth(), Sixth(), Seventh(), MajorSeventh(), MinorSeventh(), Augmented(), Diminished()];
    forall k | 0 <= k < 9
      ensures forall i, j :: 0 <= i < j < |all[k].semitones| ==> all[k].semitones[i] < all[k].semitones[j]
    {
      assert Climbs(all[k].semitones);
      ClimbsStrictly(all[k].semitones);
    }
    assert ChordTypes() == all;
  }

  /** Each catalog entry equals itself and no other entry. */
  lemma CatalogDistinct()
    ensures forall i, j :: 0 <= i < 9 && 0 <= j < 9 ==>
      (Equals(ChordTypes()[i], Some(ChordTypes()[j])) <==> i == j)
  {
  }
}
