/** experiments/JS-Expectation/magulis-expectancy.js: the same expectancy rating
    written in JavaScript (its tables are the four of `Expectancy`, entry for
    entry), and a greedy loop that extends a two-note seed by always choosing
    the best-rated pitch among 0..12. JavaScript's out-of-range array reads and
    the arithmetic on them are modelled explicitly. */
module MagulisExpectancy {
  import opened Melodies
  import opened Expectancy

  /** A JavaScript number as the rating code can produce it: a number,
      `undefined` (an array read out of range) or `NaN` (arithmetic on it). */
  datatype JsNum = Num(value: real) | Undefined | NaN

  /** `table[i]`. */
  function At(table: seq<real>, i: int): (r: JsNum)
    ensures r.Num? <==> 0 <= i < |table|
  {
    if 0 <= i < |table| then Num(table[i]) else Undefined
  }

  function Times(a: JsNum, b: JsNum): JsNum {
    if a.Num? && b.Num? then Num(a.value * b.value) else NaN
  }

  function Plus(a: JsNum, b: JsNum): JsNum {
    if a.Num? && b.Num? then Num(a.value + b.value) else NaN
  }

  function DivideBy3(a: JsNum): JsNum {
    if a.Num? then Num(a.value / 3.0) else NaN
  }

  /** `s`: the stability table at the raw candidate (no pitch class taken),
      except 9 after 11. */
  function StabilityJs(candidate: int, prev: int): JsNum {
    if prev == 11 && candidate == 9 then Num(6.0) else At(Stability, candidate)
  }

  /** `p`: the proximity table at the uncapped interval. */
  function ProximityJs(candidate: int, prev: int): JsNum {
    At(Proximity, AbsInt(candidate - prev))
  }

  /** `d`: a direction table at the uncapped previous interval, a third of it
      for a repeated pitch. */
  function DirectionJs(candidate: int, prev: int, prevprev: int): JsNum {
    var prevInterval := AbsInt(prev - prevprev);
    var d := if Continues(candidate, prev, prevprev) then At(DirectionContinuation, prevInterval)
             else At(DirectionReversal, prevInterval);
    if Sign(candidate - prev) == 0 then DivideBy3(d) else d
  }

  /** `calc_expectancy_rating_for_pitch` in JavaScript: `s * p + d`, and
      `return s, p, d` returns only `d` (the comma operator). */
  function CalcRatingJs(candidate: int, prev: int, prevprev: int, singleRatings: bool): JsNum {
    var d := DirectionJs(candidate, prev, prevprev);
    if singleRatings then d else Plus(Times(StabilityJs(candidate, prev), ProximityJs(candidate, prev)), d)
  }

  /** For pitches 0..12 the JavaScript rating is the Python one: a number, and
      with single ratings the Python triple's direction rating. */
  lemma AgreesWithPython(candidate: int, prev: int, prevprev: int)
    requires 0 <= candidate <= 12 && 0 <= prev <= 12 && 0 <= prevprev <= 12
    ensures CalcRatingJs(candidate, prev, prevprev, false)
         == Num(CalcExpectancyRatingForPitch(candidate, prev, prevprev, false).value)
    ensures CalcRatingJs(candidate, prev, prevprev, true)
         == Num(CalcExpectancyRatingForPitch(candidate, prev, prevprev, true).d)
  {
    ComponentsAgree(candidate, prev, prevprev);
    CombinationAgrees(candidate, prev, prevprev);
  }

  /** In range, the JavaScript rating combines the Python components. */
  lemma ComponentsAgree(candidate: int, prev: int, prevprev: int)
    requires 0 <= candidate <= 12 && 0 <= prev <= 12 && 0 <= prevprev <= 12
    ensures CalcRatingJs(candidate, prev, prevprev, false)
         == Plus(Times(Num(StabilityRating(candidate, prev)), Num(ProximityRating(candidate, prev))),
                 Num(DirectionRating(candidate, prev, prevprev)))
    ensures CalcRatingJs(candidate, prev, prevprev, true) == Num(DirectionRating(candidate, prev, prevprev))
  {
    StabilityAgrees(candidate, prev);
    ProximityAgrees(candidate, prev);
    DirectionAgrees(candidate, prev, prevprev);
  }

  /** `s * p + d` on the Python components, in JavaScript numbers. */
  lemma CombinationAgrees(candidate: int, prev: int, prevprev: int)
    ensures Plus(Times(Num(StabilityRating(candidate, prev)), Num(ProximityRating(candidate, prev))),
                 Num(DirectionRating(candidate, prev, prevprev)))
         == Num(CalcExpectancyRatingForPitch(candidate, prev, prevprev, false).value)
  {
    CombinedValue(candidate, prev, prevprev);
    CombineAgrees(Num(StabilityRating(candidate, prev)), Num(ProximityRating(candidate, prev)),
                  Num(DirectionRating(candidate, prev, prevprev)), StabilityRating(candidate, prev),
                  ProximityRating(candidate, prev), DirectionRating(candidate, prev, prevprev));
  }

  lemma StabilityAgrees(candidate: int, prev: int)
    requires 0 <= candidate <= 12
    ensures StabilityJs(candidate, prev) == Num(StabilityRating(candidate, prev))
  {
    assert Stability[12] == Stability[0];
  }

  lemma DirectionAgrees(candidate: int, prev: int, prevprev: int)
    requires 0 <= prev <= 12 && 0 <= prevprev <= 12
    ensures DirectionJs(candidate, prev, prevprev) == Num(DirectionRating(candidate, prev, prevprev))
  {
  }

  lemma ProximityAgrees(candidate: int, prev: int)
    requires 0 <= candidate <= 12 && 0 <= prev <= 12
    ensures ProximityJs(candidate, prev) == Num(ProximityRating(candidate, prev))
  {
  }

  lemma CombinedValue(candidate: int, prev: int, prevprev: int)
    ensures CalcExpectancyRatingForPitch(candidate, prev, prevprev, false).value
         == StabilityRating(candidate, prev) * ProximityRating(candidate, prev) + DirectionRating(candidate, prev, prevprev)
  {
  }

  /** `s * p + d` on numbers is the Python value. */
  lemma CombineAgrees(js: JsNum, jp: JsNum, jd: JsNum, s: real, p: real, d: real)
    requires js == Num(s) && jp == Num(p) && jd == Num(d)
    ensures Plus(Times(js, jp), jd) == Num(s * p + d)
  {
  }

  /** Out of range the two differ: a pitch 13 semitones above its predecessor
      reads past the end of the proximity table, so the rating is `NaN`. */
  lemma UncappedInterval()
    ensures CalcRatingJs(13, 0, 0, false) == NaN
  {
  }

  /** The 13 candidate ratings after `prev` and `prevprev`. */
  function RatingsRow(prev: int, prevprev: int): (r: seq<JsNum>)
    ensures |r| == 13
  {
    seq(13, c requires 0 <= c < 13 => CalcRatingJs(c, prev, prevprev, false))
  }

  predicate AllNumbers(row: seq<JsNum>) {
    forall i :: 0 <= i < |row| ==> row[i].Num?
  }

  function Values(row: seq<JsNum>): (r: seq<real>)
    requires AllNumbers(row)
    ensures |r| == |row| && forall i :: 0 <= i < |r| ==> r[i] == row[i].value
  {
    seq(|row|, i requires 0 <= i < |row| => row[i].value)
  }

  /** `Math.max(...xs)` on numbers. */
  function MaxOf(xs: seq<real>): (m: real)
    requires xs != []
    ensures m in xs
    ensures forall x :: x in xs ==> x <= m
  {
    if |xs| == 1 then xs[0]
    else
      var rest := MaxOf(xs[1..]);
      assert forall x :: x in xs ==> x == xs[0] || x in xs[1..];
      if xs[0] >= rest then xs[0] else rest
  }

  /** `row.indexOf(Math.max(...row))`: the first position of the largest rating;
      `-1` when any entry is not a number, since then the maximum is `NaN`, which
      `indexOf` never finds. */
  function Prediction(row: seq<JsNum>): (r: int)
    requires row != []
    ensures r == -1 <==> !AllNumbers(row)
    ensures r != -1 ==>
      && 0 <= r < |row|
      && (forall i :: 0 <= i < |row| ==> row[i].value <= row[r].value)
      && (forall i :: 0 <= i < r ==> row[i].value < row[r].value)
  {
    if AllNumbers(row) then
      var values := Values(row);
      var m := MaxOf(values);
      var r := IndexOf(values, m);
      assert forall i :: 0 <= i < |row| ==> values[i] in values;
      r
    else -1
  }

  /** With the two previous pitches in 0..12 every lookup is in range, so the
      prediction is again a pitch in 0..12. */
  lemma PredictionInRange(prev: int, prevprev: int)
    requires 0 <= prev <= 12 && 0 <= prevprev <= 12
    ensures AllNumbers(RatingsRow(prev, prevprev))
    ensures 0 <= Prediction(RatingsRow(prev, prevprev)) <= 12
  {
    var row := RatingsRow(prev, prevprev);
    forall c | 0 <= c < 13 ensures row[c].Num? {
      AgreesWithPython(c, prev, prevprev);
    }
  }

  /** A note object of the script: a seed with only a pitch, or a predicted note. */
  datatype NoteObject = Seed(pitch: int) | Predicted(velocity: int, pitch: int, start: real, end: real)

  /** The note the script appends at loop step `note`: velocity 100, half a
      beat long, starting at `note / 2 + 1`. */
  function PredictedNote(prediction: int, note: int): NoteObject {
    Predicted(100, prediction, note as real / 2.0 + 1.0, note as real / 2.0 + 1.5)
  }

  /** The inner loop: the ratings of the 13 candidate pitches 0..12, in order. */
  method RateCandidates(prevPitch: int, prevprevPitch: int) returns (ratingsForNote: seq<JsNum>)
    ensures ratingsForNote == RatingsRow(prevPitch, prevprevPitch)
  {
    ratingsForNote := [];
    var pitch := 0;
    while pitch < 13
      invariant 0 <= pitch <= 13 && |ratingsForNote| == pitch
      invariant forall c :: 0 <= c < pitch ==> ratingsForNote[c] == CalcRatingJs(c, prevPitch, prevprevPitch, false)
    {
      ratingsForNote := ratingsForNote + [CalcRatingJs(pitch, prevPitch, prevprevPitch, false)];
      pitch := pitch + 1;
    }
  }

  /** The script's top level, run with the seed pitches (5 and 7 in the script)
      and `number_of_generated_notes` (8 in the script): for each further note,
      the 13 candidate ratings are pushed as a row, the best candidate is the
      prediction, and the predicted note is appended. */
  method RunPrediction(first: int, second: int, numberOfGeneratedNotes: int)
      returns (notes: seq<NoteObject>, expectancyRatings: seq<seq<JsNum>>, predictions: seq<int>)
    ensures |notes| == (if numberOfGeneratedNotes < 2 then 2 else numberOfGeneratedNotes)
    ensures |expectancyRatings| == |predictions| == |notes| - 2
    ensures notes[0] == Seed(first) && notes[1] == Seed(second)
    ensures forall i :: 0 <= i < |predictions| ==>
      && expectancyRatings[i] == RatingsRow(notes[i + 1].pitch, notes[i].pitch)
      && predictions[i] == Prediction(expectancyRatings[i])
      && notes[i + 2] == PredictedNote(predictions[i], i + 2)
    ensures 0 <= first <= 12 && 0 <= second <= 12 ==>
      forall i :: 0 <= i < |notes| ==> 0 <= notes[i].pitch <= 12
  {
    notes := [Seed(first), Seed(second)];
    expectancyRatings := [];
    predictions := [];
    var note := 2;
    while note < numberOfGeneratedNotes
      invariant 2 <= note && |notes| == note
      invariant note <= numberOfGeneratedNotes || note == 2
      invariant notes[0] == Seed(first) && notes[1] == Seed(second)
      invariant Generated(notes, expectancyRatings, predictions)
      invariant 0 <= first <= 12 && 0 <= second <= 12 ==> InRange(notes)
    {
      var prevPitch := notes[note - 1].pitch;
      var prevprevPitch := notes[note - 2].pitch;
      var ratingsForNote := RateCandidates(prevPitch, prevprevPitch);
      var prediction := Prediction(ratingsForNote);
      if 0 <= first <= 12 && 0 <= second <= 12 {
        PredictionInRange(prevPitch, prevprevPitch);
      }
      PredictStep(notes, expectancyRatings, predictions);
      assert 0 <= first <= 12 && 0 <= second <= 12 ==> InRange(notes + [PredictedNote(prediction, note)]);
      expectancyRatings := expectancyRatings + [ratingsForNote];
      predictions := predictions + [prediction];
      notes := notes + [PredictedNote(prediction, note)];
      note := note + 1;
    }
  }

  /** Every pitch in 0..12. */
  ghost predicate InRange(notes: seq<NoteObject>) {
    forall i :: 0 <= i < |notes| ==> 0 <= notes[i].pitch <= 12
  }

  /** Row `i`, prediction `i` and note `i + 2` are what the script computes from
      the two notes before. */
  ghost predicate Generated(notes: seq<NoteObject>, ratings: seq<seq<JsNum>>, predictions: seq<int>) {
    && |ratings| == |predictions| == |notes| - 2
    && forall i :: 0 <= i < |predictions| ==>
         && ratings[i] == RatingsRow(notes[i + 1].pitch, notes[i].pitch)
         && predictions[i] == Prediction(ratings[i])
         && notes[i + 2] == PredictedNote(predictions[i], i + 2)
  }

  /** One loop step keeps `Generated`. */
  lemma PredictStep(notes: seq<NoteObject>, ratings: seq<seq<JsNum>>, predictions: seq<int>)
    requires |notes| >= 2 && Generated(notes, ratings, predictions)
    ensures var row := RatingsRow(notes[|notes| - 1].pitch, notes[|notes| - 2].pitch);
      var p := Prediction(row);
      Generated(notes + [PredictedNote(p, |notes|)], ratings + [row], predictions + [p])
  {
    var n := |predictions|;
    var row := RatingsRow(notes[n + 1].pitch, notes[n].pitch);
    var p := Prediction(row);
    var notes', ratings', predictions' := notes + [PredictedNote(p, n + 2)], ratings + [row], predictions + [p];
    forall i | 0 <= i < n
      ensures ratings'[i] == RatingsRow(notes'[i + 1].pitch, notes'[i].pitch)
      ensures predictions'[i] == Prediction(ratings'[i])
      ensures notes'[i + 2] == PredictedNote(predictions'[i], i + 2)
    {
      assert ratings'[i] == ratings[i] && predictions'[i] == predictions[i];
      assert notes'[i] == notes[i] && notes'[i + 1] == notes[i + 1] && notes'[i + 2] == notes[i + 2];
    }
    assert ratings'[n] == row && predictions'[n] == p && notes'[n + 2] == PredictedNote(p, n + 2);
    assert notes'[n] == notes[n] && notes'[n + 1] == notes[n + 1];
  }
}
