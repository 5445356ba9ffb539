/** src/evaluation/evaluation.py: similarity of a result melody to its control
    melody, as the absolute feature distances and the same distances divided by
    per-feature normalisation factors. Feature extraction and the distance
    computation are outside the core and are taken as parameters. */
module Evaluation {
  import opened Outcomes
  import opened Music

  type Scores = map<string, real>

  /** The `{'absolute': ..., 'normalized': ...}` result. */
  datatype Similarity = Similarity(absolute: Scores, normalized: Option<Scores>)

  /** Every key has a factor, and no factor is zero. */
  predicate Normalizable(results: Scores, factors: Scores) {
    forall k :: k in results ==> k in factors && factors[k] != 0.0
  }

  /** Each value divided by its key's factor. */
  function Normalized(results: Scores, factors: Scores): (r: Scores)
    requires Normalizable(results, factors)
    ensures r.Keys == results.Keys
    ensures forall k :: k in r ==> r[k] * factors[k] == results[k]
  {
    map k | k in results :: results[k] / factors[k]
  }

  /** The exception `value / factors[key]` raises for a key that cannot be
      normalised. */
  predicate FailsOn(results: Scores, factors: Scores, k: string, e: Error) {
    k in results
    && ((k !in factors && e == KeyError(k)) || (k in factors && factors[k] == 0.0 && e == ZeroDivisionError))
  }

  lemma SomeKey(s: set<string>)
    requires s != {}
    ensures exists k :: k in s
  {
    if forall k :: k !in s {
      assert false;
    }
  }

  class Evaluation {
    var normalizationFactors: Option<Scores>

    constructor (normalizationFactors: Option<Scores>)
      ensures this.normalizationFactors == normalizationFactors
    {
      this.normalizationFactors := normalizationFactors;
    }

    method SetNormalizationFactors(normalizationFactors: Option<Scores>)
      modifies this
      ensures this.normalizationFactors == normalizationFactors
    {
      this.normalizationFactors := normalizationFactors;
    }

    /** `__normalize`: without factors there is no result (the source prints an
        error and returns None). With factors, the result has the same keys, each
        value divided by its factor; a key without a factor is a `KeyError` and a
        zero factor a `ZeroDivisionError`. Which bad key is met first depends on
        the dictionary's order, so the model only says it is one of them. */
    method Normalize(results: Scores) returns (r: Result<Option<Scores>>)
      ensures normalizationFactors.None? ==> r == Ok(None)
      ensures normalizationFactors.Some? ==>
        (r.Ok? <==> Normalizable(results, normalizationFactors.value))
      ensures normalizationFactors.Some? && r.Ok? ==>
        r.value == Some(Normalized(results, normalizationFactors.value))
      ensures r.Err? ==>
        normalizationFactors.Some? && exists k :: FailsOn(results, normalizationFactors.value, k, r.error)
    {
      if normalizationFactors.None? {
        return Ok(None);
      }
      var factors := normalizationFactors.value;
      var normalizedValues: Scores := map[];
      var todo := results.Keys;
      while todo != {}
        invariant todo <= results.Keys
        invariant forall k :: k in results && k !in todo ==> k in factors && factors[k] != 0.0
        invariant normalizedValues.Keys == results.Keys - todo
        invariant forall k :: k in normalizedValues ==> normalizedValues[k] == results[k] / factors[k]
        decreases todo
      {
        SomeKey(todo);
        var key :| key in todo;
        if key !in factors {
          assert FailsOn(results, factors, key, KeyError(key));
          return Err(KeyError(key));
        }
        var n := factors[key];
        if n == 0.0 {
          assert FailsOn(results, factors, key, ZeroDivisionError);
          return Err(ZeroDivisionError);
        }
        normalizedValues := normalizedValues[key := results[key] / n];
        todo := todo - {key};
      }
      assert normalizedValues == Normalized(results, factors);
      return Ok(Some(normalizedValues));
    }

    /** `evaluate_similarity`. Without a feature list: the distances between the
        two melodies' features, and those distances normalised. With one: the
        loop stores into `result` (the pretty_midi object) instead of into
        `selection`, which raises a `TypeError` as soon as a requested feature
        is among the distances; otherwise both maps come back empty. */
    method EvaluateSimilarity<F>(result: PrettyMidi, control: PrettyMidi, features: Option<seq<string>>,
                                 analyze: PrettyMidi -> F, distances: (F, F) -> Scores)
        returns (r: Result<Similarity>)
      ensures var d := distances(analyze(result), analyze(control));
        features.None? ==>
          && (r.Ok? <==> normalizationFactors.None? || Normalizable(d, normalizationFactors.value))
          && (r.Ok? ==> r.value.absolute == d
                        && r.value.normalized == if normalizationFactors.None? then None
                                                 else Some(Normalized(d, normalizationFactors.value)))
      ensures var d := distances(analyze(result), analyze(control));
        features.Some? ==>
          && (r.Err? <==> exists i :: 0 <= i < |features.value| && features.value[i] in d)
          && (r.Ok? ==> r.value.absolute == map[]
                        && r.value.normalized == if normalizationFactors.None? then None else Some(map[]))
    {
      var resultEvaluation := analyze(result);
      var controlEvaluation := analyze(control);
      var similarityDistances := distances(resultEvaluation, controlEvaluation);
      if features.None? {
        var normalized := Normalize(similarityDistances);
        if normalized.Err? {
          return Err(normalized.error);
        }
        return Ok(Similarity(similarityDistances, normalized.value));
      }
      var selection: Scores := map[];
      var keys := features.value;
      var i := 0;
      while i < |keys|
        invariant 0 <= i <= |keys|
        invariant forall j :: 0 <= j < i ==> keys[j] !in similarityDistances
      {
        if keys[i] in similarityDistances {
          return Err(TypeError("'PrettyMIDI' object does not support item assignment"));
        }
        i := i + 1;
      }
      var normalized := Normalize(selection);
      // Normalising the empty selection cannot fail.
      assert normalized.Ok?;
      assert normalized.value.Some? ==> normalized.value.value == map[];
      return Ok(Similarity(selection, normalized.value));
    }
  }
}
