/** src/analysis/expectancy.py: Margulis's melodic-expectancy rating of a
    candidate pitch after two previous pitches, from four rating tables
    (stability, proximity, continuation and reversal of direction). */
module Expectancy {
  import opened Outcomes
  import opened Music
  import opened Melodies

  /** Indexed by the pitch class relative to the root. */
  const Stability: seq<real> := [6.0, 2.0, 4.0, 2.0, 5.0, 4.0, 2.0, 5.0, 2.0, 4.0, 2.0, 4.0, 6.0]
  /** Indexed by the interval in semitones. */
  const Proximity: seq<real> := [24.0, 36.0, 32.0, 25.0, 20.0, 16.0, 12.0, 9.0, 6.0, 4.0, 2.0, 1.0, 0.25]
  /** Indexed by the previous interval in semitones. */
  const DirectionContinuation: seq<real> := [6.0, 20.0, 12.0, 6.0, 0.0, 0.0, 0.0, 0.0, 0.0, 0.0, 0.0, 0.0, 0.0]
  /** Indexed by the previous interval in semitones. */
  const DirectionReversal: seq<real> := [0.0, 0.0, 0.0, 0.0, 0.0, 6.0, 12.0, 25.0, 36.0, 52.0, 75.0, 75.0, 75.0]

  /** Every table has 13 entries, none of them negative. */
  predicate RatingTable(t: seq<real>) {
    |t| == 13 && forall i :: 0 <= i < |t| ==> t[i] >= 0.0
  }

  lemma TablesWellFormed()
    ensures RatingTable(Stability) && RatingTable(Proximity)
    ensures RatingTable(DirectionContinuation) && RatingTable(DirectionReversal)
  {
  }

  function AbsInt(x: int): nat { if x < 0 then -x else x }

  /** `np.sign` on an integer. */
  function Sign(x: int): int { if x > 0 then 1 else if x < 0 then -1 else 0 }

  /** An interval capped at an octave, so that it indexes the tables. */
  function Cap12(interval: nat): (r: nat)
    ensures r <= 12
  {
    if interval <= 12 then interval else 12
  }

  /** `continuation`: the melody keeps moving in the same, non-zero direction. */
  predicate Continues(candidate: int, prev: int, prevprev: int) {
    Sign(candidate - prev) != 0 && Sign(candidate - prev) == Sign(prev - prevprev)
  }

  /** The rating: `s * p + d`, or the separate `(s, p, d)` when single ratings
      are asked for. */
  datatype Rating = Combined(value: real) | Components(s: real, p: real, d: real)

  function StabilityRating(candidate: int, prev: int): real {
    if prev == 11 && candidate == 9 then 6.0 else Stability[GetPitchClass(candidate)]
  }

  function ProximityRating(candidate: int, prev: int): real {
    Proximity[Cap12(AbsInt(candidate - prev))]
  }

  function DirectionRating(candidate: int, prev: int, prevprev: int): real {
    var prevInterval := Cap12(AbsInt(prev - prevprev));
    var d := if Continues(candidate, prev, prevprev) then DirectionContinuation[prevInterval]
             else DirectionReversal[prevInterval];
    if Sign(candidate - prev) == 0 then d / 3.0 else d
  }

  /** `calc_expectancy_rating_for_pitch`. */
  function CalcExpectancyRatingForPitch(candidate: int, prev: int, prevprev: int, singleRatings: bool): (r: Rating)
    ensures singleRatings <==> r.Components?
    ensures r.Combined? ==> r.value >= 0.0
  {
    TablesWellFormed();
    var s := StabilityRating(candidate, prev);
    var p := ProximityRating(candidate, prev);
    var d := DirectionRating(candidate, prev, prevprev);
    if singleRatings then Components(s, p, d) else Combined(s * p + d)
  }

  /** `continuation` holds exactly for three pitches strictly rising or strictly
      falling. */
  lemma ContinuesIff(candidate: int, prev: int, prevprev: int)
    ensures Continues(candidate, prev, prevprev) <==>
      (prevprev < prev < candidate || prevprev > prev > candidate)
  {
  }

  /** The direction rating lies between 0 and 75, and is at most 20 when the
      melody continues in its direction. */
  lemma DirectionRatingBounds(candidate: int, prev: int, prevprev: int)
    ensures 0.0 <= DirectionRating(candidate, prev, prevprev) <= 75.0
    ensures Continues(candidate, prev, prevprev) ==> DirectionRating(candidate, prev, prevprev) <= 20.0
  {
    assert forall i :: 0 <= i < 13 ==> 0.0 <= DirectionReversal[i] <= 75.0;
    assert forall i :: 0 <= i < 13 ==> 0.0 <= DirectionContinuation[i] <= 20.0;
  }

  /** The direction rating depends on the candidate only through whether it
      continues, reverses or repeats: two continuing candidates are rated alike,
      so are two reversing ones, and a reversing candidate is rated three times
      a repeated pitch. */
  lemma DirectionRatingRelations(c1: int, c2: int, prev: int, prevprev: int)
    ensures Continues(c1, prev, prevprev) && Continues(c2, prev, prevprev) ==>
      DirectionRating(c1, prev, prevprev) == DirectionRating(c2, prev, prevprev)
    ensures c1 != prev && !Continues(c1, prev, prevprev) && c2 != prev && !Continues(c2, prev, prevprev) ==>
      DirectionRating(c1, prev, prevprev) == DirectionRating(c2, prev, prevprev)
    ensures c1 != prev && !Continues(c1, prev, prevprev) ==>
      DirectionRating(c1, prev, prevprev) == 3.0 * DirectionRating(prev, prev, prevprev)
  {
  }

  /** The stability rating lies between 2 and 6, and is 6 exactly for the root
      (pitch class 0) or for 9 right after 11 (the raw pitches, not their
      classes). */
  lemma StabilityRatingCases(candidate: int, prev: int)
    ensures 2.0 <= StabilityRating(candidate, prev) <= 6.0
    ensures StabilityRating(candidate, prev) == 6.0 <==> candidate % 12 == 0 || (prev == 11 && candidate == 9)
  {
    assert forall i :: 0 <= i < 13 ==> 2.0 <= Stability[i] <= 6.0;
    assert forall i :: 1 <= i < 12 ==> Stability[i] < 6.0;
  }

  /** Transposing all three pitches by whole octaves keeps the rating, except
      where the 11-to-9 rule applies on one side only. */
  lemma {:induction false} OctaveInvariance(candidate: int, prev: int, prevprev: int, octaves: int, singleRatings: bool)
    requires !(prev == 11 && candidate == 9)
    requires !(prev + 12 * octaves == 11 && candidate + 12 * octaves == 9)
    ensures CalcExpectancyRatingForPitch(candidate + 12 * octaves, prev + 12 * octaves, prevprev + 12 * octaves, singleRatings)
         == CalcExpectancyRatingForPitch(candidate, prev, prevprev, singleRatings)
  {
    PitchClassOctaveInvariant(candidate, octaves);
    var c, p, pp := candidate + 12 * octaves, prev + 12 * octaves, prevprev + 12 * octaves;
    assert c - p == candidate - prev && p - pp == prev - prevprev;
  }

  /** `get_expectancy_ratings_for_sequence`: the first instrument's notes, two
      `None` entries for the first two notes, then one combined rating for every
      later note from its two predecessors. A melody without instruments is an
      `IndexError`. */
  method GetExpectancyRatingsForSequence(melody: PrettyMidi) returns (r: Result<seq<Option<real>>>)
    ensures melody.score.parts == [] <==> r.Err?
    ensures r.Err? ==> r.error.IndexError?
    ensures r.Ok? ==>
      var notes := melody.score.parts[0];
      && |r.value| == (if |notes| < 2 then 2 else |notes|)
      && r.value[0] == None && r.value[1] == None
      && forall n :: 2 <= n < |r.value| ==>
           r.value[n] == Some(CalcExpectancyRatingForPitch(notes[n].pitch, notes[n - 1].pitch, notes[n - 2].pitch, false).value)
    ensures r.Ok? ==> forall n :: 2 <= n < |r.value| ==> r.value[n].Some? && r.value[n].value >= 0.0
  {
    if melody.score.parts == [] {
      return Err(IndexError("instruments[0]"));
    }
    var notes := melody.score.parts[0];
    var ratings: seq<Option<real>> := [None, None];
    var n := 2;
    while n < |notes|
      invariant 2 <= n && |ratings| == n
      invariant n <= |notes| || n == 2
      invariant ratings[0] == None && ratings[1] == None
      invariant n <= |notes| ==> RatedUpTo(ratings, notes, n)
    {
      var e := CalcExpectancyRatingForPitch(notes[n].pitch, notes[n - 1].pitch, notes[n - 2].pitch, false);
      RateNext(ratings, notes, n);
      ratings := ratings + [Some(e.value)];
      n := n + 1;
    }
    forall k | 2 <= k < |ratings| ensures ratings[k].Some? && ratings[k].value >= 0.0 {
      assert ratings[k] == Some(CalcExpectancyRatingForPitch(notes[k].pitch, notes[k - 1].pitch, notes[k - 2].pitch, false).value);
    }
    return Ok(ratings);
  }

  /** Entries 2 up to `n` hold each note's non-negative combined rating. */
  ghost predicate RatedUpTo(ratings: seq<Option<real>>, notes: seq<Note>, n: int)
    requires n <= |ratings| && n <= |notes|
  {
    forall k :: 2 <= k < n ==>
      && ratings[k] == Some(CalcExpectancyRatingForPitch(notes[k].pitch, notes[k - 1].pitch, notes[k - 2].pitch, false).value)
      && ratings[k].value >= 0.0
  }

  lemma RateNext(ratings: seq<Option<real>>, notes: seq<Note>, n: int)
    requires 2 <= n == |ratings| < |notes| && RatedUpTo(ratings, notes, n)
    ensures RatedUpTo(ratings + [Some(CalcExpectancyRatingForPitch(notes[n].pitch, notes[n - 1].pitch, notes[n - 2].pitch, false).value)],
                      notes, n + 1)
  {
    var e := CalcExpectancyRatingForPitch(notes[n].pitch, notes[n - 1].pitch, notes[n - 2].pitch, false);
    var next := ratings + [Some(e.value)];
    forall k | 2 <= k < n ensures next[k] == ratings[k] {}
    assert next[n] == Some(e.value);
  }
}
