/** src/analysis/metrical.py, `note_offsets_per_beat`: for every beat position of
    the bar, the sorted distinct fractional offsets of the notes that start there. */
module Metrical {
  import opened Outcomes
  import opened Music
  import opened PythonNumbers

  /** The time signature's numerator, or 4 when the stream has none. */
  function BeatCount(timeSignature: Option<Numerator>): (r: int)
    ensures r >= 1
    ensures timeSignature.None? ==> r == 4
    ensures timeSignature.Some? ==> r == timeSignature.value
  {
    match timeSignature
    case Some(n) => n
    case None => 4
  }

  /** `int(offset) % beat_count`: the beat of the bar a note starts on. */
  function BeatOf(offset: real, beatCount: int): (b: int)
    requires beatCount >= 1
    ensures 0 <= b < beatCount
  {
    Trunc(offset) % beatCount
  }

  /** The fractional offsets observed at beat `b`. */
  ghost function ObservedAt(notes: seq<Note>, beatCount: int, b: int): set<real>
    requires beatCount >= 1
  {
    set k | 0 <= k < |notes| && BeatOf(notes[k].offset, beatCount) == b :: Frac(notes[k].offset)
  }

  predicate StrictlyIncreasing(s: seq<real>) {
    forall i, j :: 0 <= i < j < |s| ==> s[i] < s[j]
  }

  predicate IsLeast(m: real, s: set<real>) {
    m in s && forall x :: x in s ==> m <= x
  }

  lemma SomeMember(s: set<real>)
    requires s != {}
    ensures exists x :: x in s
  {
    if forall x :: x !in s { assert false; }
  }

  lemma {:induction false} LeastExists(s: set<real>, x: real)
    requires x in s
    ensures exists m :: IsLeast(m, s)
    decreases |s|
  {
    var rest := s - {x};
    forall y | y in s ensures y == x || y in rest { }
    if rest == {} {
      assert IsLeast(x, s);
    } else {
      SomeMember(rest);
      var z :| z in rest;
      LeastExists(rest, z);
      var m :| IsLeast(m, rest);
      var least := if x < m then x else m;
      assert IsLeast(least, s);
    }
  }

  /** Python's `sorted` applied to a set: its members in strictly increasing order. */
  method SortedFromSet(s: set<real>) returns (r: seq<real>)
    ensures StrictlyIncreasing(r)
    ensures forall x :: x in r <==> x in s
  {
    r := [];
    var rest := s;
    while rest != {}
      invariant StrictlyIncreasing(r)
      invariant forall x :: x in s <==> x in r || x in rest
      invariant forall x, y :: x in r && y in rest ==> x < y
      invariant forall x :: x in rest ==> x !in r
      decreases |rest|
    {
      SomeMember(rest);
      var some :| some in rest;
      LeastExists(rest, some);
      var m :| IsLeast(m, rest);
      forall i | 0 <= i < |r| ensures r[i] < m {
        assert r[i] in r;
      }
      r := r + [m];
      rest := rest - {m};
    }
  }

  /** `note_offsets_per_beat`: one list per beat of the bar; list `b` holds, in
      strictly increasing order, exactly the fractional offsets of the notes whose
      offset truncates to a whole number congruent to `b`. */
  method NoteOffsetsPerBeat(stream: Score) returns (buckets: seq<seq<real>>)
    ensures |buckets| == BeatCount(stream.timeSignature)
    ensures forall b :: 0 <= b < |buckets| ==> StrictlyIncreasing(buckets[b])
    ensures forall b, x :: 0 <= b < |buckets| ==>
              (x in buckets[b] <==> x in ObservedAt(FlatNotes(stream.parts), |buckets|, b))
  {
    var beatCount := BeatCount(stream.timeSignature);
    var sets: seq<set<real>> := [];
    var i := 0;
    while i < beatCount
      invariant 0 <= i <= beatCount && |sets| == i
      invariant forall b :: 0 <= b < i ==> sets[b] == {}
    {
      sets := sets + [{}];
      i := i + 1;
    }

    var notes := FlatNotes(stream.parts);
    var k := 0;
    while k < |notes|
      invariant 0 <= k <= |notes| && |sets| == beatCount
      invariant forall b :: 0 <= b < beatCount ==> sets[b] == ObservedAt(notes[..k], beatCount, b)
    {
      var beat := BeatOf(notes[k].offset, beatCount);
      var relative := Frac(notes[k].offset);
      forall b | 0 <= b < beatCount
        ensures ObservedAt(notes[..k + 1], beatCount, b)
                == ObservedAt(notes[..k], beatCount, b) + (if b == beat then {relative} else {})
      {
        assert forall j :: 0 <= j < k ==> notes[..k + 1][j] == notes[..k][j];
        assert notes[..k + 1][k] == notes[k];
      }
      sets := sets[beat := sets[beat] + {relative}];
      k := k + 1;
    }
    assert notes[..k] == notes;

    buckets := [];
    i := 0;
    while i < beatCount
      invariant 0 <= i <= beatCount && |buckets| == i
      invariant forall b :: 0 <= b < i ==> StrictlyIncreasing(buckets[b])
      invariant forall b, x :: 0 <= b < i ==> (x in buckets[b] <==> x in sets[b])
    {
      var sorted := SortedFromSet(sets[i]);
      buckets := buckets + [sorted];
      i := i + 1;
    }
  }
}
