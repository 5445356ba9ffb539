/** src/utils/melodies.py: pitch classes, and `find_closest`, which the rhythm
    quantisation imports from the same module. */
module Melodies {
  import opened PythonNumbers

  /** `get_pitch_class`: Python's `pitch % 12`, which for a positive modulus is the
      non-negative remainder, as Dafny's `%` is. */
  function GetPitchClass(pitch: int): (pc: int)
    ensures 0 <= pc < 12
    ensures (pitch - pc) % 12 == 0
    ensures 0 <= pitch < 12 ==> pc == pitch
  {
    pitch % 12
  }

  /** Pitches an octave apart (or any number of octaves) share their pitch class. */
  lemma PitchClassOctaveInvariant(pitch: int, octaves: int)
    ensures GetPitchClass(pitch + 12 * octaves) == GetPitchClass(pitch)
  {
    var q, r := pitch / 12, pitch % 12;
    assert pitch + 12 * octaves == 12 * (q + octaves) + r;
    RemainderUnique(pitch + 12 * octaves, q + octaves, r);
  }

  /** The remainder modulo 12 is the only value in 0..11 that differs from the
      number by a multiple of 12. */
  lemma RemainderUnique(x: int, q: int, r: int)
    requires x == 12 * q + r && 0 <= r < 12
    ensures x % 12 == r
  {
    var q', r' := x / 12, x % 12;
    assert 12 * (q - q') == r' - r;
  }

  /** `find_closest(values, target)`: a member of `values` nearest to `target`; on a
      tie the earliest such member. */
  function FindClosest(values: seq<real>, target: real): (r: real)
    requires |values| > 0
    ensures r in values
    ensures forall v :: v in values ==> Abs(r - target) <= Abs(v - target)
  {
    if |values| == 1 then values[0]
    else
      var rest := FindClosest(values[1..], target);
      assert forall v :: v in values ==> v == values[0] || v in values[1..];
      if Abs(values[0] - target) <= Abs(rest - target) then values[0] else rest
  }

  /** A target that is itself a member is its own closest value. */
  lemma FindClosestOfMember(values: seq<real>, target: real)
    requires target in values
    ensures FindClosest(values, target) == target
  {
    var r := FindClosest(values, target);
    assert Abs(r - target) <= Abs(target - target);
  }

  /** Python's `list.index`: the first position holding `x`. */
  function IndexOf(values: seq<real>, x: real): (i: nat)
    requires x in values
    ensures i < |values| && values[i] == x
    ensures forall k :: 0 <= k < i ==> values[k] != x
  {
    if values[0] == x then 0 else 1 + IndexOf(values[1..], x)
  }
}
