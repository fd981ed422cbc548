/**
  Keys: what a player asks a voice to sound. A `FreqKey` names a frequency
  directly; a `Note12Key` names a note of the twelve-tone scale by its name
  and octave, and is converted to a frequency through the scale's base.

  `f32` values are `real`s and `f32::powf` is the parameter `powf`, about
  which nothing is assumed.
*/
module Key {
  import opened Wrappers

  /** An unsigned 8-bit field. */
  type u8 = x: int | 0 <= x < 256

  /** The power function `x.powf(y)`. */
  type Pow = (real, real) -> real

  datatype KeyType = Freq | Note12

  /** Why a `Note12Key` has no frequency: the source panics in both cases. */
  datatype KeyError =
    | UnknownNoteName   // the name is not in the table: `unwrap` on `None`
    | OctaveUnderflow   // `4 - octave` in `u8` with an octave above 4

  /** The twelve note names, in the order whose index is the exponent of the base. */
  const Rank: seq<string> := ["A", "A#", "B", "C", "C#", "D", "D#", "E", "F", "F#", "G", "G#"]

  /** The frequency `440.0` that note "A" always receives. */
  const ConcertA: real := 440.0

  datatype FreqKey = FreqKey(f: real, volume: u8, duration: real)
  {
    /** A frequency key converts to itself, field by field. */
    function ToFreqKey(): (r: FreqKey)
      ensures r.f == f && r.volume == volume && r.duration == duration
    {
      FreqKey(f, volume, duration)
    }

    function GetType(): (t: KeyType)
      ensures t.Freq?
    {
      Freq
    }
  }

  /** The first index at which `name` occurs in `table`, if any. */
  function PositionIn(table: seq<string>, name: string): (r: Option<nat>)
    ensures r.Some? ==> r.value < |table| && table[r.value] == name
    ensures r.Some? ==> forall j :: 0 <= j < r.value ==> table[j] != name
    ensures r.None? <==> name !in table
  {
    if |table| == 0 then None
    else if table[0] == name then Some(0)
    else
      match PositionIn(table[1..], name)
      case None => None
      case Some(i) => Some(i + 1)
  }

  /** The index of a note name in `Rank`. */
  function RankIndex(name: string): (r: Option<nat>)
    ensures r.Some? ==> r.value < 12 && Rank[r.value] == name
    ensures r.None? <==> name !in Rank
  {
    PositionIn(Rank, name)
  }

  /** The twelve names of `Rank` are pairwise different. */
  lemma RankDistinct(a: nat, b: nat)
    requires a < b < |Rank|
    ensures Rank[a] != Rank[b]
  {
  }

  /** A name whose first occurrence is at index `i` is found there. */
  lemma {:induction false} PositionOfFirst(table: seq<string>, name: string, i: nat)
    requires i < |table| && table[i] == name
    requires forall j :: 0 <= j < i ==> table[j] != name
    ensures PositionIn(table, name) == Some(i)
  {
    if i > 0 {
      PositionOfFirst(table[1..], name, i - 1);
    }
  }

  /** Each entry of `Rank` is found at its own index. */
  lemma RankIndexOf(i: nat)
    requires i < |Rank|
    ensures RankIndex(Rank[i]) == Some(i)
  {
    forall j | 0 <= j < i
      ensures Rank[j] != Rank[i]
    {
      RankDistinct(j, i);
    }
    PositionOfFirst(Rank, Rank[i], i);
  }

  function Abs(x: real): (r: real)
    ensures r >= 0.0 && (r == x || r == -x)
  {
    if x < 0.0 then -x else x
  }

  /**
    The frequency `bias * factor`. Kept behind a name so that the verifier
    treats the product of two unknowns as a term, not as non-linear arithmetic.
  */
  function Times(bias: real, factor: real): real
  {
    bias * factor
  }

  /** The octave term `2^|d|` for a distance `d` from octave 4. */
  function OctaveFactor(d: int, powf: Pow): real
  {
    powf(2.0, Abs(d as real))
  }

  /**
    The frequency of the octave-4 note named `name`: 440 for "A", whatever
    the base; the base raised to the name's index in `Rank` for the others;
    none for a name outside the table.
  */
  function BaseBias(name: string, base: real, powf: Pow): (r: Option<real>)
    ensures name == "A" ==> r == Some(ConcertA)
    ensures name != "A" && name in Rank ==> r == Some(powf(base, RankIndex(name).value as real))
    ensures r.None? <==> name !in Rank
  {
    if name == "A" then Some(ConcertA)
    else
      match RankIndex(name)
      case None => None
      case Some(i) => Some(powf(base, i as real))
  }

  datatype Note12Key = Note12Key(name: string, octave: u8, volume: u8, base: real)
  {
    /**
      The conversion as written: the octave term is `4 - octave` computed in
      `u8`, which underflows for every octave above 4. The name is looked up
      first, so an unknown name fails as such whatever the octave.
    */
    function ToFreqKeyAsWritten(powf: Pow): (r: Result<FreqKey, KeyError>)
      ensures r.Failure? <==> name !in Rank || octave > 4
      ensures name !in Rank ==> r == Failure(UnknownNoteName)
      ensures name in Rank && octave > 4 ==> r == Failure(OctaveUnderflow)
      ensures r.Success? ==> r.value.f == Times(BaseBias(name, base, powf).value, OctaveFactor(4 - octave, powf))
      ensures r.Success? ==> r.value.volume == volume && r.value.duration == 1.0
    {
      match BaseBias(name, base, powf)
      case None => Failure(UnknownNoteName)
      case Some(bias) =>
        if octave > 4 then Failure(OctaveUnderflow)
        else Success(FreqKey(Times(bias, OctaveFactor(4 - octave, powf)), volume, 1.0))
    }

    /**
      The conversion with the octave term `2^|4 - octave|` that the source's
      comment describes, computed without underflow: only an unknown name
      has no frequency.
    */
    function ToFreqKey(powf: Pow): (r: Result<FreqKey, KeyError>)
      ensures r.Failure? <==> name !in Rank
      ensures r.Failure? ==> r.error == UnknownNoteName
      ensures r.Success? ==> r.value.f == Times(BaseBias(name, base, powf).value, OctaveFactor(4 - octave, powf))
      ensures r.Success? ==> r.value.volume == volume && r.value.duration == 1.0
    {
      match BaseBias(name, base, powf)
      case None => Failure(UnknownNoteName)
      case Some(bias) => Success(FreqKey(Times(bias, OctaveFactor(4 - octave, powf)), volume, 1.0))
    }

    function GetType(): (t: KeyType)
      ensures t.Note12?
    {
      Note12
    }
  }

  /** Up to octave 4 the conversion as written and the intended one agree. */
  lemma ConversionsAgreeUpToOctaveFour(k: Note12Key, powf: Pow)
    requires k.octave <= 4
    ensures k.ToFreqKeyAsWritten(powf) == k.ToFreqKey(powf)
  {
  }

  /** As written, note "A" in octave 5 has no frequency; the intended conversion gives it one. */
  lemma OctaveFiveUnderflows(powf: Pow)
    ensures Note12Key("A", 5, 100, 440.0).ToFreqKeyAsWritten(powf) == Failure(OctaveUnderflow)
    ensures Note12Key("A", 5, 100, 440.0).ToFreqKey(powf) == Success(FreqKey(Times(ConcertA, powf(2.0, 1.0)), 100, 1.0))
  {
    var k := Note12Key("A", 5, 100, 440.0);
    assert k.name == "A";
    assert OctaveFactor(4 - k.octave, powf) == powf(2.0, 1.0);
  }

  /** The octave term of a distance and of its opposite are the same. */
  lemma OctaveFactorEven(d: int, powf: Pow)
    ensures OctaveFactor(d, powf) == OctaveFactor(-d, powf)
  {
    assert Abs(d as real) == Abs((-d) as real);
  }

  /** The octave term depends only on the distance from octave 4. */
  lemma OctaveDistanceSymmetric(k: Note12Key, d: nat, powf: Pow)
    requires d <= 4
    ensures k.(octave := 4 - d).ToFreqKey(powf) == k.(octave := 4 + d).ToFreqKey(powf)
  {
    var below := k.(octave := 4 - d);
    var above := k.(octave := 4 + d);
    assert 4 - below.octave == d as int && 4 - above.octave == -(d as int);
    OctaveFactorEven(d as int, powf);
    var bias := BaseBias(k.name, k.base, powf);
    assert below.name == k.name && below.base == k.base && above.name == k.name && above.base == k.base;
    if bias.Some? {
      var f := Times(bias.value, OctaveFactor(d, powf));
      assert below.ToFreqKey(powf) == Success(FreqKey(f, k.volume, 1.0));
    }
  }

  /** Note "A" sounds at 440 times the octave term whatever the base. */
  lemma ConcertAIgnoresBase(k: Note12Key, b: real, powf: Pow)
    requires k.name == "A"
    ensures k.ToFreqKey(powf) == k.(base := b).ToFreqKey(powf)
    ensures k.ToFreqKey(powf).Success? && k.ToFreqKey(powf).value.f == Times(ConcertA, OctaveFactor(4 - k.octave, powf))
  {
    assert "A" in Rank;
  }

  /** Every name of the table other than "A" raises the base to its own index. */
  lemma NamedNoteFrequency(k: Note12Key, i: nat, powf: Pow)
    requires 0 < i < |Rank| && k.name == Rank[i]
    ensures k.ToFreqKey(powf).Success?
    ensures k.ToFreqKey(powf).value.f == Times(powf(k.base, i as real), OctaveFactor(4 - k.octave, powf))
  {
    RankDistinct(0, i);
    RankIndexOf(i);
  }
}
