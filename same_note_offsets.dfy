/** src/adaptation/operations/same_note_offsets_operation.py: rhythm quantisation.
    The notes of the base melody are moved onto the offsets that the control
    melody uses at the same beat positions, colliding notes are spread apart, and
    notes that now run into their successor are shortened. */
module SameNoteOffsets {
  import opened Outcomes
  import opened Music
  import opened PythonNumbers
  import opened Sorting
  import opened Melodies
  import opened Metrical
  import opened MelodyData
  import opened AdaptationOperation

  /** The analysis the operation reads from the control melody. */
  const AnalysisKey := "note_offsets_per_beat"

  // ---------------------------------------------------------------------------
  // Bar count and the list of allowed offsets

  /** `round(control length / beat_count)`. */
  function BarCount(controlLength: real, beatCount: int): int
    requires beatCount >= 1
  {
    RoundHalfEven(controlLength / beatCount as real)
  }

  /** The offset of relative position `relative` at beat `beat` of bar `bar`. */
  function GridPoint(beatCount: int, beat: int, relative: real, bar: int): real {
    (bar * beatCount + beat) as real + relative
  }

  /** The innermost loop: one relative offset repeated in every bar. */
  function BarRun(beatCount: int, beat: int, relative: real, bars: nat): seq<real> {
    seq(bars, i => GridPoint(beatCount, beat, relative, i))
  }

  function Bars(barCount: int): nat {
    if barCount > 0 then barCount else 0
  }

  /** The middle loop: every relative offset of one beat's list. */
  function BucketRun(beatCount: int, beat: int, bucket: seq<real>, barCount: int): seq<real>
    decreases |bucket|
  {
    if bucket == [] then []
    else BucketRun(beatCount, beat, bucket[..|bucket| - 1], barCount)
         + BarRun(beatCount, beat, bucket[|bucket| - 1], Bars(barCount))
  }

  /** The values appended to `allowed_offsets`, in the order they are appended. */
  function Candidates(beatCount: int, buckets: seq<seq<real>>, barCount: int): seq<real>
    decreases |buckets|
  {
    if buckets == [] then []
    else Candidates(beatCount, buckets[..|buckets| - 1], barCount)
         + BucketRun(beatCount, |buckets| - 1, buckets[|buckets| - 1], barCount)
  }

  function TotalSize(buckets: seq<seq<real>>): nat
    decreases |buckets|
  {
    if buckets == [] then 0 else TotalSize(buckets[..|buckets| - 1]) + |buckets[|buckets| - 1]|
  }

  /** `x` is bucket value `buckets[b][k]` placed at beat `b` of some bar. */
  ghost predicate OnGrid(x: real, beatCount: int, buckets: seq<seq<real>>, barCount: int) {
    exists b, k, i :: 0 <= b < |buckets| && 0 <= k < |buckets[b]| && 0 <= i < barCount &&
      x == GridPoint(beatCount, b, buckets[b][k], i)
  }

  lemma {:induction false} BucketRunLength(beatCount: int, beat: int, bucket: seq<real>, barCount: int)
    ensures |BucketRun(beatCount, beat, bucket, barCount)| == Bars(barCount) * |bucket|
    decreases |bucket|
  {
    if bucket != [] {
      BucketRunLength(beatCount, beat, bucket[..|bucket| - 1], barCount);
      Distribute(Bars(barCount), |bucket| - 1, 1);
    }
  }

  lemma Distribute(a: nat, b: nat, c: nat)
    ensures a * (b + c) == a * b + a * c
  {
  }

  lemma {:induction false} BucketRunMembers(beatCount: int, beat: int, bucket: seq<real>, barCount: int)
    ensures forall x :: x in BucketRun(beatCount, beat, bucket, barCount) <==>
              exists k, i :: 0 <= k < |bucket| && 0 <= i < barCount && x == GridPoint(beatCount, beat, bucket[k], i)
    decreases |bucket|
  {
    if bucket != [] {
      var front := bucket[..|bucket| - 1];
      var last := bucket[|bucket| - 1];
      BucketRunMembers(beatCount, beat, front, barCount);
      var run := BarRun(beatCount, beat, last, Bars(barCount));
      assert BucketRun(beatCount, beat, bucket, barCount) == BucketRun(beatCount, beat, front, barCount) + run;
      forall x
        ensures x in BucketRun(beatCount, beat, bucket, barCount) <==>
                exists k, i :: 0 <= k < |bucket| && 0 <= i < barCount && x == GridPoint(beatCount, beat, bucket[k], i)
      {
        if x in run {
          var i :| 0 <= i < |run| && run[i] == x;
          assert x == GridPoint(beatCount, beat, bucket[|bucket| - 1], i);
        }
        if exists k, i :: 0 <= k < |bucket| && 0 <= i < barCount && x == GridPoint(beatCount, beat, bucket[k], i) {
          var k, i :| 0 <= k < |bucket| && 0 <= i < barCount && x == GridPoint(beatCount, beat, bucket[k], i);
          if k < |front| {
            assert x == GridPoint(beatCount, beat, front[k], i);
          } else {
            assert run[i] == x;
          }
        }
      }
    }
  }

  /** The allowed-offset list has one entry per bar and bucket value. */
  lemma {:induction false} CandidatesLength(beatCount: int, buckets: seq<seq<real>>, barCount: int)
    ensures |Candidates(beatCount, buckets, barCount)| == Bars(barCount) * TotalSize(buckets)
    decreases |buckets|
  {
    if buckets != [] {
      var front := buckets[..|buckets| - 1];
      var last := buckets[|buckets| - 1];
      CandidatesLength(beatCount, front, barCount);
      BucketRunLength(beatCount, |buckets| - 1, last, barCount);
      Distribute(Bars(barCount), TotalSize(front), |last|);
    }
  }

  /** Every appended value is a grid point. */
  lemma {:induction false} CandidatesOnGrid(beatCount: int, buckets: seq<seq<real>>, barCount: int)
    ensures forall x :: x in Candidates(beatCount, buckets, barCount) ==> OnGrid(x, beatCount, buckets, barCount)
    decreases |buckets|
  {
    if buckets != [] {
      var front := buckets[..|buckets| - 1];
      var b0 := |buckets| - 1;
      var run := BucketRun(beatCount, b0, buckets[b0], barCount);
      CandidatesOnGrid(beatCount, front, barCount);
      BucketRunMembers(beatCount, b0, buckets[b0], barCount);
      assert Candidates(beatCount, buckets, barCount) == Candidates(beatCount, front, barCount) + run;
      forall x | x in Candidates(beatCount, buckets, barCount)
        ensures OnGrid(x, beatCount, buckets, barCount)
      {
        if x in run {
          var k, i :| 0 <= k < |buckets[b0]| && 0 <= i < barCount && x == GridPoint(beatCount, b0, buckets[b0][k], i);
        } else {
          assert x in Candidates(beatCount, front, barCount);
          var b, k, i :| 0 <= b < |front| && 0 <= k < |front[b]| && 0 <= i < barCount &&
            x == GridPoint(beatCount, b, front[b][k], i);
          assert buckets[b] == front[b];
        }
      }
    }
  }

  /** Every grid point is appended. */
  lemma {:induction false} OnGridCandidates(beatCount: int, buckets: seq<seq<real>>, barCount: int)
    ensures forall x :: OnGrid(x, beatCount, buckets, barCount) ==> x in Candidates(beatCount, buckets, barCount)
    decreases |buckets|
  {
    if buckets != [] {
      var front := buckets[..|buckets| - 1];
      var b0 := |buckets| - 1;
      var run := BucketRun(beatCount, b0, buckets[b0], barCount);
      OnGridCandidates(beatCount, front, barCount);
      BucketRunMembers(beatCount, b0, buckets[b0], barCount);
      assert Candidates(beatCount, buckets, barCount) == Candidates(beatCount, front, barCount) + run;
      forall x | OnGrid(x, beatCount, buckets, barCount)
        ensures x in Candidates(beatCount, buckets, barCount)
      {
        var b, k, i :| 0 <= b < |buckets| && 0 <= k < |buckets[b]| && 0 <= i < barCount &&
          x == GridPoint(beatCount, b, buckets[b][k], i);
        if b < b0 {
          assert front[b] == buckets[b];
          assert OnGrid(x, beatCount, front, barCount);
        } else {
          assert x in run;
        }
      }
    }
  }

  /** The allowed-offset list holds exactly the grid points
      `bar * beat_count + beat + value`. */
  lemma CandidatesMembers(beatCount: int, buckets: seq<seq<real>>, barCount: int)
    ensures forall x :: x in Candidates(beatCount, buckets, barCount) <==> OnGrid(x, beatCount, buckets, barCount)
  {
    CandidatesOnGrid(beatCount, buckets, barCount);
    OnGridCandidates(beatCount, buckets, barCount);
  }

  /** `allowed_offsets` after `sort()`. */
  function AllowedOffsets(beatCount: int, buckets: seq<seq<real>>, barCount: int): (r: seq<real>)
    ensures SortedBy(r, Id)
    ensures multiset(r) == multiset(Candidates(beatCount, buckets, barCount))
  {
    SortBy(Candidates(beatCount, buckets, barCount), Id)
  }

  /** The sorted allowed offsets are exactly the grid points, one per bar and
      bucket value. */
  lemma AllowedOffsetsFacts(beatCount: int, buckets: seq<seq<real>>, barCount: int)
    ensures |AllowedOffsets(beatCount, buckets, barCount)| == Bars(barCount) * TotalSize(buckets)
    ensures forall x :: x in AllowedOffsets(beatCount, buckets, barCount) <==> OnGrid(x, beatCount, buckets, barCount)
  {
    CandidatesLength(beatCount, buckets, barCount);
    CandidatesMembers(beatCount, buckets, barCount);
    SortByMembers(Candidates(beatCount, buckets, barCount), Id);
  }

  /** Builds the allowed-offset list as the source does: three nested loops that
      append, then one sort. */
  method BuildAllowedOffsets(beatCount: int, buckets: seq<seq<real>>, barCount: int) returns (allowed: seq<real>)
    ensures allowed == AllowedOffsets(beatCount, buckets, barCount)
  {
    allowed := [];
    var beat := 0;
    while beat < |buckets|
      invariant 0 <= beat <= |buckets|
      invariant allowed == Candidates(beatCount, buckets[..beat], barCount)
    {
      var bucket := buckets[beat];
      var k := 0;
      while k < |bucket|
        invariant 0 <= k <= |bucket|
        invariant allowed == Candidates(beatCount, buckets[..beat], barCount)
                             + BucketRun(beatCount, beat, bucket[..k], barCount)
      {
        var relative := bucket[k];
        var i := 0;
        while i < barCount
          invariant 0 <= i <= Bars(barCount)
          invariant allowed == Candidates(beatCount, buckets[..beat], barCount)
                               + BucketRun(beatCount, beat, bucket[..k], barCount)
                               + BarRun(beatCount, beat, relative, i)
        {
          allowed := allowed + [GridPoint(beatCount, beat, relative, i)];
          i := i + 1;
        }
        assert bucket[..k + 1][..k] == bucket[..k];
        k := k + 1;
      }
      assert bucket[..k] == bucket;
      assert buckets[..beat + 1][..beat] == buckets[..beat];
      beat := beat + 1;
    }
    assert buckets[..beat] == buckets;
    allowed := SortBy(allowed, Id);
  }

  // ---------------------------------------------------------------------------
  // Snapping pass

  /** Every note of a part moved to its nearest allowed offset. */
  function SnapPart(notes: seq<Note>, allowed: seq<real>): (r: seq<Note>)
    requires allowed != [] || notes == []
    ensures |r| == |notes|
    ensures forall k :: 0 <= k < |r| ==>
              r[k].offset in allowed && r[k].pitch == notes[k].pitch && r[k].duration == notes[k].duration
    ensures forall k, a :: 0 <= k < |r| && a in allowed ==>
              Abs(r[k].offset - notes[k].offset) <= Abs(a - notes[k].offset)
  {
    seq(|notes|, k requires 0 <= k < |notes| => notes[k].(offset := FindClosest(allowed, notes[k].offset)))
  }

  // ---------------------------------------------------------------------------
  // Spreading pass

  /** Python's `xs[i]`, where `-1` names the last element. */
  function PyIndex(xs: seq<real>, i: int): real
    requires -|xs| <= i < |xs|
  {
    if i < 0 then xs[|xs| + i] else xs[i]
  }

  /** The loop state of the spreading pass for one part: the notes (none removed
      yet), `taken_offsets` and `notes_to_delete` (as positions in the part). */
  datatype Spread = Spread(notes: seq<Note>, taken: seq<real>, doomed: seq<nat>)

  /** One `other` note (position `j`) compared with the current note (position
      `index`, whose offset was `offset`, found at `allowed[idx]`). */
  function Collide(st: Spread, allowed: seq<real>, index: nat, offset: real, idx: nat, j: nat): (r: Spread)
    requires index < j < |st.notes| && idx < |allowed|
    ensures |r.notes| == |st.notes|
  {
    if st.notes[j].offset != offset then st
    else if PyIndex(allowed, idx - 1) !in st.taken then
      st.(notes := st.notes[index := st.notes[index].(offset := PyIndex(allowed, idx - 1))])
    else if idx < |allowed| - 1 && allowed[idx + 1] !in st.taken then
      st.(notes := st.notes[j := st.notes[j].(offset := allowed[idx + 1])],
          taken := st.taken + [allowed[idx + 1]])
    else
      st.(doomed := st.doomed + [j])
  }

  /** The inner loop over `p.notes[index+1:]`, from position `j` on. */
  function Others(st: Spread, allowed: seq<real>, index: nat, offset: real, idx: nat, j: nat): (r: Spread)
    requires index < j <= |st.notes| && idx < |allowed|
    ensures |r.notes| == |st.notes|
    decreases |st.notes| - j
  {
    if j == |st.notes| then st
    else Others(Collide(st, allowed, index, offset, idx, j), allowed, index, offset, idx, j + 1)
  }

  /** One iteration of the outer loop: look the note's offset up in the allowed
      list, compare it with every later note, then record its offset as taken. */
  function Visit(st: Spread, allowed: seq<real>, index: nat): (r: Spread)
    requires index < |st.notes| && allowed != []
    ensures |r.notes| == |st.notes|
  {
    var offset := st.notes[index].offset;
    var idx := IndexOf(allowed, FindClosest(allowed, offset));
    var after := Others(st, allowed, index, offset, idx, index + 1);
    after.(taken := after.taken + [after.notes[index].offset])
  }

  /** The outer loop, from position `index` on. */
  function SpreadFrom(st: Spread, allowed: seq<real>, index: nat): (r: Spread)
    requires index <= |st.notes| && (allowed != [] || index == |st.notes|)
    ensures |r.notes| == |st.notes|
    decreases |st.notes| - index
  {
    if index == |st.notes| then st
    else SpreadFrom(Visit(st, allowed, index), allowed, index + 1)
  }

  /** `p.remove(notes_to_delete)`: the notes at the listed positions go, the
      others stay in order. */
  function RemoveDoomed(notes: seq<Note>, doomed: seq<nat>): (r: seq<Note>)
    ensures |r| <= |notes|
    ensures forall n :: n in r ==> n in notes
    ensures forall k :: 0 <= k < |notes| && k !in doomed ==> notes[k] in r
    decreases |notes|
  {
    if notes == [] then []
    else
      var front := notes[..|notes| - 1];
      var rest := RemoveDoomed(front, doomed);
      assert forall k :: 0 <= k < |front| ==> notes[k] == front[k];
      rest + (if |notes| - 1 in doomed then [] else [notes[|notes| - 1]])
  }

  /** The spreading pass on one part. */
  function SpreadPart(notes: seq<Note>, allowed: seq<real>): seq<Note>
    requires allowed != [] || notes == []
  {
    var st := SpreadFrom(Spread(notes, [], []), allowed, 0);
    RemoveDoomed(st.notes, st.doomed)
  }

  /** What one stretch of the spreading pass, starting at position `lo`, keeps:
      the notes' pitches and durations, the notes before `lo`, membership of
      every offset in the allowed list, the recorded offsets and deletions
      (only appended to), and every new deletion names a position after `lo`. */
  ghost predicate Keeps(st: Spread, r: Spread, allowed: seq<real>, lo: nat)
  {
    && |r.notes| == |st.notes|
    && (forall k :: 0 <= k < |r.notes| ==>
          r.notes[k].pitch == st.notes[k].pitch && r.notes[k].duration == st.notes[k].duration)
    && (forall k :: 0 <= k < lo && k < |r.notes| ==> r.notes[k] == st.notes[k])
    && ((forall k :: 0 <= k < |st.notes| ==> st.notes[k].offset in allowed) ==>
          forall k :: 0 <= k < |r.notes| ==> r.notes[k].offset in allowed)
    && st.taken <= r.taken
    && st.doomed <= r.doomed
    && (forall d :: d in r.doomed ==> d in st.doomed || lo < d < |r.notes|)
  }

  lemma KeepsTrans(a: Spread, b: Spread, c: Spread, allowed: seq<real>, lo: nat, lo2: nat)
    requires lo <= lo2 && Keeps(a, b, allowed, lo) && Keeps(b, c, allowed, lo2)
    ensures Keeps(a, c, allowed, lo)
  {
  }

  /** A collision moves the current note only to the allowed offset before its
      own (the last one when its own is the first), and only when that offset
      is not taken. Failing that, it moves the other note to the allowed offset
      after the current one, only when there is one and it is not taken, and
      records it as taken. Only when neither move applies is the other note
      marked for deletion. At most one of the three happens. */
  lemma CollideMoves(st: Spread, allowed: seq<real>, index: nat, offset: real, idx: nat, j: nat)
    requires index < j < |st.notes| && idx < |allowed|
    ensures var r := Collide(st, allowed, index, offset, idx, j);
      && Keeps(st, r, allowed, index)
      && (r.notes[index].offset == st.notes[index].offset || r.notes[index].offset == PyIndex(allowed, idx - 1))
      && (r.notes[j].offset == st.notes[j].offset || (idx + 1 < |allowed| && r.notes[j].offset == allowed[idx + 1]))
      && (st.notes[j].offset != offset ==> r == st)
    ensures var r := Collide(st, allowed, index, offset, idx, j);
      r.notes[index].offset != st.notes[index].offset ==>
        && st.notes[j].offset == offset && PyIndex(allowed, idx - 1) !in st.taken
        && r.taken == st.taken && r.doomed == st.doomed
    ensures var r := Collide(st, allowed, index, offset, idx, j);
      r.notes[j].offset != st.notes[j].offset || r.taken != st.taken ==>
        && st.notes[j].offset == offset && PyIndex(allowed, idx - 1) in st.taken
        && idx + 1 < |allowed| && allowed[idx + 1] !in st.taken
        && r.notes[j].offset == allowed[idx + 1] && r.taken == st.taken + [allowed[idx + 1]]
        && r.notes[index] == st.notes[index] && r.doomed == st.doomed
    ensures var r := Collide(st, allowed, index, offset, idx, j);
      r.doomed != st.doomed ==>
        && st.notes[j].offset == offset && PyIndex(allowed, idx - 1) in st.taken
        && (idx + 1 == |allowed| || allowed[idx + 1] in st.taken)
        && r.doomed == st.doomed + [j] && r.notes == st.notes && r.taken == st.taken
  {
  }

  lemma {:induction false} OthersKeeps(st: Spread, allowed: seq<real>, index: nat, offset: real, idx: nat, j: nat)
    requires index < j <= |st.notes| && idx < |allowed|
    ensures Keeps(st, Others(st, allowed, index, offset, idx, j), allowed, index)
    decreases |st.notes| - j
  {
    if j < |st.notes| {
      var mid := Collide(st, allowed, index, offset, idx, j);
      CollideMoves(st, allowed, index, offset, idx, j);
      OthersKeeps(mid, allowed, index, offset, idx, j + 1);
      KeepsTrans(st, mid, Others(mid, allowed, index, offset, idx, j + 1), allowed, index, index);
    }
  }

  lemma VisitKeeps(st: Spread, allowed: seq<real>, index: nat)
    requires index < |st.notes| && allowed != []
    ensures Keeps(st, Visit(st, allowed, index), allowed, index)
  {
    var offset := st.notes[index].offset;
    var idx := IndexOf(allowed, FindClosest(allowed, offset));
    OthersKeeps(st, allowed, index, offset, idx, index + 1);
  }

  /** The whole outer loop from `index` on keeps the notes before `index`, and
      deletes only notes after it. */
  lemma {:induction false} SpreadFromKeeps(st: Spread, allowed: seq<real>, index: nat)
    requires index <= |st.notes| && (allowed != [] || index == |st.notes|)
    ensures Keeps(st, SpreadFrom(st, allowed, index), allowed, index)
    decreases |st.notes| - index
  {
    if index < |st.notes| {
      var mid := Visit(st, allowed, index);
      VisitKeeps(st, allowed, index);
      SpreadFromKeeps(mid, allowed, index + 1);
      KeepsTrans(st, mid, SpreadFrom(mid, allowed, index + 1), allowed, index, index + 1);
    }
  }

  /** The spreading pass never deletes the first note of a part, keeps every
      surviving note's pitch and duration, and leaves every offset on the
      allowed grid. */
  lemma SpreadPartFacts(notes: seq<Note>, allowed: seq<real>)
    requires allowed != [] || notes == []
    ensures var st := SpreadFrom(Spread(notes, [], []), allowed, 0);
      && |st.notes| == |notes|
      && (forall k :: 0 <= k < |notes| ==>
            st.notes[k].pitch == notes[k].pitch && st.notes[k].duration == notes[k].duration)
      && (notes != [] ==> st.notes[0] in SpreadPart(notes, allowed))
      && ((forall k :: 0 <= k < |notes| ==> notes[k].offset in allowed) ==>
            forall n :: n in SpreadPart(notes, allowed) ==> n.offset in allowed)
  {
    var st := SpreadFrom(Spread(notes, [], []), allowed, 0);
    SpreadFromKeeps(Spread(notes, [], []), allowed, 0);
    assert 0 !in st.doomed;
  }

  /** Distinct offsets: when no two notes of a part share an offset, the
      spreading pass changes nothing. */
  lemma {:induction false} OthersNoClash(st: Spread, allowed: seq<real>, index: nat, offset: real, idx: nat, j: nat)
    requires index < j <= |st.notes| && idx < |allowed|
    requires forall k :: j <= k < |st.notes| ==> st.notes[k].offset != offset
    ensures Others(st, allowed, index, offset, idx, j) == st
    decreases |st.notes| - j
  {
    if j < |st.notes| {
      OthersNoClash(st, allowed, index, offset, idx, j + 1);
    }
  }

  lemma {:induction false} SpreadFromNoClash(st: Spread, allowed: seq<real>, index: nat)
    requires index <= |st.notes| && (allowed != [] || index == |st.notes|)
    requires forall a, b :: 0 <= a < b < |st.notes| ==> st.notes[a].offset != st.notes[b].offset
    ensures SpreadFrom(st, allowed, index).notes == st.notes
    ensures SpreadFrom(st, allowed, index).doomed == st.doomed
    decreases |st.notes| - index
  {
    if index < |st.notes| {
      var offset := st.notes[index].offset;
      var idx := IndexOf(allowed, FindClosest(allowed, offset));
      OthersNoClash(st, allowed, index, offset, idx, index + 1);
      SpreadFromNoClash(Visit(st, allowed, index), allowed, index + 1);
    }
  }

  lemma {:induction false} RemoveNothing(notes: seq<Note>)
    ensures RemoveDoomed(notes, []) == notes
    decreases |notes|
  {
    if notes != [] {
      var front := notes[..|notes| - 1];
      RemoveNothing(front);
      assert |notes| - 1 !in [];
      assert RemoveDoomed(notes, []) == front + [notes[|notes| - 1]];
      assert front + [notes[|notes| - 1]] == notes;
    }
  }

  lemma SpreadPartDistinct(notes: seq<Note>, allowed: seq<real>)
    requires allowed != [] || notes == []
    requires forall a, b :: 0 <= a < b < |notes| ==> notes[a].offset != notes[b].offset
    ensures SpreadPart(notes, allowed) == notes
  {
    SpreadFromNoClash(Spread(notes, [], []), allowed, 0);
    RemoveNothing(notes);
  }

  /** The move to the previous allowed offset wraps around: with allowed offsets
      0, 1, 2 and two notes at 0, the first note is moved to 2, where a third
      note already sits, so two notes still share an offset afterwards. */
  lemma SpreadWrapsAround()
    ensures var allowed := [0.0, 1.0, 2.0];
      var notes := [Note(60, 0.0, 1.0), Note(62, 0.0, 1.0), Note(64, 2.0, 1.0)];
      SpreadPart(notes, allowed) == [Note(60, 2.0, 1.0), Note(62, 0.0, 1.0), Note(64, 2.0, 1.0)]
  {
    var allowed := [0.0, 1.0, 2.0];
    var notes := [Note(60, 0.0, 1.0), Note(62, 0.0, 1.0), Note(64, 2.0, 1.0)];
    FindClosestOfMember(allowed, 0.0);
    FindClosestOfMember(allowed, 2.0);
    assert IndexOf(allowed, 0.0) == 0;
    assert IndexOf(allowed, 2.0) == 2;
    var s0 := Spread(notes, [], []);
    var s1 := Visit(s0, allowed, 0);
    assert s1 == Spread([Note(60, 2.0, 1.0), Note(62, 0.0, 1.0), Note(64, 2.0, 1.0)], [2.0], []);
    var s2 := Visit(s1, allowed, 1);
    assert s2 == Spread(s1.notes, [2.0, 0.0], []);
    var s3 := Visit(s2, allowed, 2);
    assert s3 == Spread(s1.notes, [2.0, 0.0, 2.0], []);
    assert SpreadFrom(s0, allowed, 0) == s3;
    RemoveNothing(s1.notes);
  }

  // ---------------------------------------------------------------------------
  // Overlap pass

  /** The note at position `k` of a part in offset order, cut short when it runs
      past a strictly later successor. */
  function TrimAt(notes: seq<Note>, k: nat): Note
    requires k < |notes|
  {
    if k < |notes| - 1 && NoteEnd(notes[k]) > notes[k + 1].offset && notes[k + 1].offset > notes[k].offset
    then notes[k].(duration := notes[k + 1].offset - notes[k].offset)
    else notes[k]
  }

  function Trimmed(notes: seq<Note>): seq<Note> {
    seq(|notes|, k requires 0 <= k < |notes| => TrimAt(notes, k))
  }

  /** The overlap pass on one part: the notes in offset order, each cut at the
      offset of its successor when it would sound past it. */
  function ShortenOverlaps(notes: seq<Note>): (r: seq<Note>)
    ensures |r| == |notes|
    ensures SortedBy(r, NoteOffset)
  {
    var sorted := SortBy(notes, NoteOffset);
    var r := Trimmed(sorted);
    assert forall k :: 0 <= k < |r| ==> r[k].offset == sorted[k].offset;
    r
  }

  /** Positionwise: pitches and offsets are kept, durations never grow (and stay
      positive), a shortened note ends exactly at its successor's offset, and no
      note sounds past a strictly later successor. */
  lemma TrimmedFacts(s: seq<Note>)
    ensures var r := Trimmed(s);
      forall k :: 0 <= k < |r| ==>
        r[k].pitch == s[k].pitch && r[k].offset == s[k].offset
        && r[k].duration <= s[k].duration
        && (s[k].duration > 0.0 ==> r[k].duration > 0.0)
    ensures var r := Trimmed(s);
      forall k :: 0 <= k < |r| && r[k].duration != s[k].duration ==>
        k + 1 < |r| && NoteEnd(r[k]) == r[k + 1].offset
    ensures var r := Trimmed(s);
      forall k :: 0 <= k < |r| - 1 && r[k].offset < r[k + 1].offset ==>
        NoteEnd(r[k]) <= r[k + 1].offset
  {
    var r := Trimmed(s);
    forall k | 0 <= k < |r|
      ensures r[k].pitch == s[k].pitch && r[k].offset == s[k].offset
      ensures r[k].duration <= s[k].duration
      ensures s[k].duration > 0.0 ==> r[k].duration > 0.0
      ensures r[k].duration != s[k].duration ==> k + 1 < |r| && NoteEnd(r[k]) == r[k + 1].offset
      ensures k < |r| - 1 && r[k].offset < r[k + 1].offset ==> NoteEnd(r[k]) <= r[k + 1].offset
    {
      assert r[k] == TrimAt(s, k);
      if k + 1 < |r| {
        assert r[k + 1] == TrimAt(s, k + 1);
      }
    }
  }

  /** The overlap pass against the part in offset order (see `TrimmedFacts`). */
  lemma ShortenOverlapsFacts(notes: seq<Note>)
    ensures var sorted := SortBy(notes, NoteOffset);
      var r := ShortenOverlaps(notes);
      && (forall k :: 0 <= k < |r| ==>
            r[k].pitch == sorted[k].pitch && r[k].offset == sorted[k].offset
            && r[k].duration <= sorted[k].duration
            && (sorted[k].duration > 0.0 ==> r[k].duration > 0.0))
      && (forall k :: 0 <= k < |r| && r[k].duration != sorted[k].duration ==>
            k + 1 < |r| && NoteEnd(r[k]) == r[k + 1].offset)
      && (forall k :: 0 <= k < |r| - 1 && r[k].offset < r[k + 1].offset ==>
            NoteEnd(r[k]) <= r[k + 1].offset)
  {
    TrimmedFacts(SortBy(notes, NoteOffset));
  }

  /** Running the overlap pass twice changes nothing the first run did not. */
  lemma ShortenOverlapsIdempotent(notes: seq<Note>)
    ensures ShortenOverlaps(ShortenOverlaps(notes)) == ShortenOverlaps(notes)
  {
    var r := ShortenOverlaps(notes);
    ShortenOverlapsFacts(notes);
    SortBySorted(r, NoteOffset);
    assert Trimmed(r) == r;
  }

  // ---------------------------------------------------------------------------
  // The three passes over all parts

  predicate NoNotes(parts: seq<seq<Note>>) {
    forall i :: 0 <= i < |parts| ==> parts[i] == []
  }

  function SnapAll(parts: seq<seq<Note>>, allowed: seq<real>): (r: seq<seq<Note>>)
    requires allowed != [] || NoNotes(parts)
    ensures |r| == |parts|
  {
    seq(|parts|, i requires 0 <= i < |parts| => SnapPart(parts[i], allowed))
  }

  function SpreadAll(parts: seq<seq<Note>>, allowed: seq<real>): (r: seq<seq<Note>>)
    requires allowed != [] || NoNotes(parts)
    ensures |r| == |parts|
  {
    seq(|parts|, i requires 0 <= i < |parts| => SpreadPart(parts[i], allowed))
  }

  function ShortenAll(parts: seq<seq<Note>>): (r: seq<seq<Note>>)
    ensures |r| == |parts|
  {
    seq(|parts|, i requires 0 <= i < |parts| => ShortenOverlaps(parts[i]))
  }

  /** `SameNoteOffsetsOperation.execute` on values. The bucket lists come from the
      control melody's analysis (a missing entry is a `KeyError`, an entry that
      is not a list of lists a `TypeError`); the beat count from the base; the bar
      count from the control melody's length. With notes to place and no allowed
      offset, `find_closest` fails. `record` stands for the meta bookkeeping of
      `create_meta_and_update_base`. */
  function Apply(base: MelodyState, control: MelodyState, record: Meta -> Meta): (r: Result<MelodyState>)
    ensures AnalysisKey !in control.analysis ==> r == Err(KeyError(AnalysisKey))
    ensures r.Ok? ==> AnalysisKey in control.analysis && control.analysis[AnalysisKey].OffsetBuckets?
    ensures r.Ok? ==>
      && |r.value.sequence.parts| == |base.sequence.parts|
      && r.value.sequence.timeSignature == base.sequence.timeSignature
      && r.value.analysis == base.analysis
      && r.value.meta == record(base.meta)
  {
    if AnalysisKey !in control.analysis then Err(KeyError(AnalysisKey))
    else match control.analysis[AnalysisKey]
      case Opaque(_) => Err(TypeError(AnalysisKey))
      case OffsetBuckets(buckets) =>
        var beatCount := BeatCount(base.sequence.timeSignature);
        var barCount := BarCount(HighestTime(FlatNotes(control.sequence.parts)), beatCount);
        var allowed := AllowedOffsets(beatCount, buckets, barCount);
        var parts := base.sequence.parts;
        if allowed == [] && !NoNotes(parts) then Err(ValueError("find_closest of an empty list"))
        else
          var adapted := ShortenAll(SpreadAll(SnapAll(parts, allowed), allowed));
          Ok(MelodyState(base.sequence.(parts := adapted), base.analysis, record(base.meta)))
  }

  /** Snapping then spreading one part: no note is added, the first note
      survives, every offset is an allowed one and every pitch comes from the
      input part. */
  lemma SnapSpreadPart(before: seq<Note>, allowed: seq<real>)
    requires allowed != [] || before == []
    ensures var spread := SpreadPart(SnapPart(before, allowed), allowed);
      && |spread| <= |before|
      && (before != [] ==> spread != [])
      && (forall n :: n in spread ==> n.offset in allowed)
      && (forall n :: n in spread ==> exists m :: m in before && m.pitch == n.pitch)
  {
    var snapped := SnapPart(before, allowed);
    var spread := SpreadPart(snapped, allowed);
    SpreadPartFacts(snapped, allowed);
    var st := SpreadFrom(Spread(snapped, [], []), allowed, 0);
    forall n | n in spread
      ensures exists m :: m in before && m.pitch == n.pitch
    {
      assert n in st.notes;
      var q :| 0 <= q < |st.notes| && st.notes[q] == n;
      assert before[q] in before;
    }
  }

  /** The three passes on one part: no note is added, the first note survives,
      each note keeps a pitch of the input part, every offset is an allowed one,
      and the notes are in offset order. */
  lemma PassesOnPart(before: seq<Note>, allowed: seq<real>)
    requires allowed != [] || before == []
    ensures var after := ShortenOverlaps(SpreadPart(SnapPart(before, allowed), allowed));
      && |after| <= |before|
      && (before != [] ==> after != [])
      && (forall n :: n in after ==> n.offset in allowed)
      && (forall n :: n in after ==> exists m :: m in before && m.pitch == n.pitch)
      && SortedBy(after, NoteOffset)
  {
    var spread := SpreadPart(SnapPart(before, allowed), allowed);
    var after := ShortenOverlaps(spread);
    SnapSpreadPart(before, allowed);
    ShortenOverlapsFrom(spread);
    forall n | n in after
      ensures n.offset in allowed
      ensures exists m :: m in before && m.pitch == n.pitch
    {
      var m :| m in spread && m.pitch == n.pitch && m.offset == n.offset;
    }
  }

  /** Each note the overlap pass leaves has the pitch and offset of one it was given. */
  lemma ShortenOverlapsFrom(notes: seq<Note>)
    ensures forall n :: n in ShortenOverlaps(notes) ==>
              exists m :: m in notes && m.pitch == n.pitch && m.offset == n.offset
  {
    var sorted := SortBy(notes, NoteOffset);
    var r := ShortenOverlaps(notes);
    TrimmedFacts(sorted);
    SortByMembers(notes, NoteOffset);
    forall n | n in r
      ensures exists m :: m in notes && m.pitch == n.pitch && m.offset == n.offset
    {
      var k :| 0 <= k < |r| && r[k] == n;
      assert sorted[k] in notes;
    }
  }

  /** What a successful run guarantees about every part (see `PassesOnPart`). */
  lemma ApplyParts(base: MelodyState, control: MelodyState, record: Meta -> Meta, i: nat)
    requires Apply(base, control, record).Ok?
    requires i < |base.sequence.parts|
    ensures var beatCount := BeatCount(base.sequence.timeSignature);
      var allowed := AllowedOffsets(beatCount, control.analysis[AnalysisKey].buckets,
                                    BarCount(HighestTime(FlatNotes(control.sequence.parts)), beatCount));
      var before := base.sequence.parts[i];
      var after := Apply(base, control, record).value.sequence.parts[i];
      && |after| <= |before|
      && (before != [] ==> after != [])
      && (forall n :: n in after ==> n.offset in allowed)
      && (forall n :: n in after ==> exists m :: m in before && m.pitch == n.pitch)
      && SortedBy(after, NoteOffset)
  {
    var beatCount := BeatCount(base.sequence.timeSignature);
    var allowed := AllowedOffsets(beatCount, control.analysis[AnalysisKey].buckets,
                                  BarCount(HighestTime(FlatNotes(control.sequence.parts)), beatCount));
    var parts := base.sequence.parts;
    assert allowed != [] || parts[i] == [];
    PassesOnPart(parts[i], allowed);
    assert Apply(base, control, record).value.sequence.parts[i]
        == ShortenAll(SpreadAll(SnapAll(parts, allowed), allowed))[i];
  }

  // ---------------------------------------------------------------------------
  // The operation as the source runs it: loops rewriting the notes in place

  /** The snapping loops: every note's offset replaced by the closest allowed one. */
  method SnapNotes(parts: seq<seq<Note>>, allowed: seq<real>) returns (r: seq<seq<Note>>)
    requires allowed != [] || NoNotes(parts)
    ensures r == SnapAll(parts, allowed)
  {
    r := parts;
    var i := 0;
    while i < |r|
      invariant 0 <= i <= |r| == |parts|
      invariant forall q :: 0 <= q < i ==> r[q] == SnapPart(parts[q], allowed)
      invariant forall q :: i <= q < |r| ==> r[q] == parts[q]
    {
      var p := r[i];
      var k := 0;
      while k < |p|
        invariant 0 <= k <= |p| == |parts[i]|
        invariant forall m :: 0 <= m < k ==>
                    p[m] == parts[i][m].(offset := FindClosest(allowed, parts[i][m].offset))
        invariant forall m :: k <= m < |p| ==> p[m] == parts[i][m]
      {
        p := p[k := p[k].(offset := FindClosest(allowed, p[k].offset))];
        k := k + 1;
      }
      r := r[i := p];
      i := i + 1;
    }
  }

  /** The inner spreading loop: the note at `index` (whose offset was `offset`,
      found at `allowed[idx]`) against every later note of the part. */
  method CompareWithLater(notes: seq<Note>, taken: seq<real>, doomed: seq<nat>, allowed: seq<real>,
                          index: nat, offset: real, idx: nat)
      returns (ns: seq<Note>, tk: seq<real>, dm: seq<nat>)
    requires index < |notes| && idx < |allowed|
    ensures Spread(ns, tk, dm) == Others(Spread(notes, taken, doomed), allowed, index, offset, idx, index + 1)
  {
    ns, tk, dm := notes, taken, doomed;
    var j := index + 1;
    while j < |ns|
      invariant index < j <= |ns| == |notes|
      invariant Others(Spread(ns, tk, dm), allowed, index, offset, idx, j)
             == Others(Spread(notes, taken, doomed), allowed, index, offset, idx, index + 1)
    {
      if ns[j].offset == offset {
        if PyIndex(allowed, idx - 1) !in tk {
          ns := ns[index := ns[index].(offset := PyIndex(allowed, idx - 1))];
        } else if idx < |allowed| - 1 && allowed[idx + 1] !in tk {
          ns := ns[j := ns[j].(offset := allowed[idx + 1])];
          tk := tk + [allowed[idx + 1]];
        } else {
          dm := dm + [j];
        }
      }
      j := j + 1;
    }
  }

  /** The spreading loops on one part: `taken_offsets` and `notes_to_delete` grow
      by appending while the notes' offsets are rewritten, then the scheduled
      notes are removed. */
  method SpreadNotesOfPart(notes: seq<Note>, allowed: seq<real>) returns (r: seq<Note>)
    requires allowed != [] || notes == []
    ensures r == SpreadPart(notes, allowed)
  {
    var ns := notes;
    var taken: seq<real> := [];
    var doomed: seq<nat> := [];
    var index := 0;
    while index < |ns|
      invariant 0 <= index <= |ns| == |notes|
      invariant SpreadFrom(Spread(ns, taken, doomed), allowed, index) == SpreadFrom(Spread(notes, [], []), allowed, 0)
    {
      var offset := ns[index].offset;
      var closest := FindClosest(allowed, offset);
      var idx := IndexOf(allowed, closest);
      ns, taken, doomed := CompareWithLater(ns, taken, doomed, allowed, index, offset, idx);
      taken := taken + [ns[index].offset];
      index := index + 1;
    }
    r := RemoveDoomed(ns, doomed);
  }

  method SpreadNotes(parts: seq<seq<Note>>, allowed: seq<real>) returns (r: seq<seq<Note>>)
    requires allowed != [] || NoNotes(parts)
    ensures r == SpreadAll(parts, allowed)
  {
    r := parts;
    var i := 0;
    while i < |r|
      invariant 0 <= i <= |r| == |parts|
      invariant forall q :: 0 <= q < i ==> r[q] == SpreadPart(parts[q], allowed)
      invariant forall q :: i <= q < |r| ==> r[q] == parts[q]
    {
      var p := SpreadNotesOfPart(r[i], allowed);
      r := r[i := p];
      i := i + 1;
    }
  }

  /** The overlap loop: each part taken in offset order, then every note that
      runs past a strictly later successor cut at the successor's offset. */
  method ShortenNotes(parts: seq<seq<Note>>) returns (r: seq<seq<Note>>)
    ensures r == ShortenAll(parts)
  {
    r := parts;
    var i := 0;
    while i < |r|
      invariant 0 <= i <= |r| == |parts|
      invariant forall q :: 0 <= q < i ==> r[q] == ShortenOverlaps(parts[q])
      invariant forall q :: i <= q < |r| ==> r[q] == parts[q]
    {
      var sorted := SortBy(r[i], NoteOffset);
      var p := sorted;
      var k := 0;
      while k < |p|
        invariant 0 <= k <= |p| == |sorted|
        invariant forall m :: 0 <= m < k ==> p[m] == TrimAt(sorted, m)
        invariant forall m :: k <= m < |p| ==> p[m] == sorted[m]
      {
        if k < |p| - 1 {
          var nextOffset := p[k + 1].offset;
          if p[k].offset + p[k].duration > nextOffset && nextOffset > p[k].offset {
            p := p[k := p[k].(duration := nextOffset - p[k].offset)];
          }
        }
        k := k + 1;
      }
      assert p == Trimmed(sorted);
      r := r[i := p];
      i := i + 1;
    }
  }

  /** `SameNoteOffsetsOperation.execute`: adapts `base` in place to the rhythm
      of `control`. On an error nothing has been changed yet. */
  method Execute(base: AdaptationMelodyData, control: AdaptationMelodyData, record: Meta -> Meta)
      returns (r: Result<()>)
    modifies base
    ensures var out := Apply(old(base.State()), old(control.State()), record);
      && (out.Ok? ==> r == Ok(()) && base.State() == out.value)
      && (out.Err? ==> r == Err(out.error) && base.State() == old(base.State()))
  {
    if AnalysisKey !in control.analysis {
      return Err(KeyError(AnalysisKey));
    }
    match control.analysis[AnalysisKey]
    case Opaque(_) =>
      return Err(TypeError(AnalysisKey));
    case OffsetBuckets(buckets) =>
      var beatCount := if base.sequence.timeSignature.Some? then base.sequence.timeSignature.value else 4;
      var barCount := BarCount(HighestTime(FlatNotes(control.sequence.parts)), beatCount);
      var allowed := BuildAllowedOffsets(beatCount, buckets, barCount);
      var parts := base.sequence.parts;
      if allowed == [] && !NoNotes(parts) {
        return Err(ValueError("find_closest of an empty list"));
      }
      parts := SnapNotes(parts, allowed);
      parts := SpreadNotes(parts, allowed);
      parts := ShortenNotes(parts);
      base.sequence := base.sequence.(parts := parts);
      base.meta := record(base.meta);
      return Ok(());
  }

  /** The operation as the pipeline sees it: it needs the per-beat offsets of
      the control melody, and ignores the analysis it is handed. */
  function SameNoteOffsetsOperation(record: Meta -> Meta): Operation {
    Operation("SameNoteOffsetsOperation", {AnalysisKey}, (base, control, _) => Apply(base, control, record))
  }
}
