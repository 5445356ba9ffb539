/** src/analysis/analysis.py: runs a collection of analysis functions on a melody
    and collects their results in a dictionary keyed by function name. */
module Analysis {
  import opened Music
  import opened MelodyData

  /** An analysis function with its `__name__`. What it computes is opaque. */
  datatype AnalysisMethod = AnalysisMethod(name: string, compute: Score -> AnalysisValue)

  /** The names of the methods, in iteration order. */
  function Names(methods: seq<AnalysisMethod>): set<string> {
    set i | 0 <= i < |methods| :: methods[i].name
  }

  /** No method after the `k`-th among the first `n` has the same name. */
  ghost predicate LastOfName(methods: seq<AnalysisMethod>, k: int, n: int)
    requires 0 <= k < n <= |methods|
  {
    forall j :: k < j < n ==> methods[j].name != methods[k].name
  }

  /** What the dictionary holds once the first `n` methods have run. */
  ghost predicate Collected(result: Analysis, stream: Score, methods: seq<AnalysisMethod>, n: int)
    requires 0 <= n <= |methods|
  {
    && result.Keys == Names(methods[..n])
    && forall k :: 0 <= k < n ==> LastOfName(methods, k, n) ==>
         result[methods[k].name] == methods[k].compute(stream)
  }

  /** `result[method.__name__] = method(stream)` for each method in turn: the keys
      are exactly the method names, and each value is computed by the LAST method
      carrying that name. */
  method AnalyzeScore(stream: Score, methods: seq<AnalysisMethod>) returns (result: Analysis)
    ensures result.Keys == Names(methods)
    ensures forall i :: 0 <= i < |methods| ==>
              (forall j :: i < j < |methods| ==> methods[j].name != methods[i].name) ==>
              result[methods[i].name] == methods[i].compute(stream)
  {
    result := map[];
    var i := 0;
    while i < |methods|
      invariant 0 <= i <= |methods|
      invariant Collected(result, stream, methods, i)
    {
      CollectOne(result, stream, methods, i);
      result := result[methods[i].name := methods[i].compute(stream)];
      i := i + 1;
    }
    assert methods[..i] == methods;
    forall k | 0 <= k < |methods| && (forall j :: k < j < |methods| ==> methods[j].name != methods[k].name)
      ensures result[methods[k].name] == methods[k].compute(stream)
    {
      assert LastOfName(methods, k, |methods|);
    }
  }

  /** Running the `n`-th method extends what the first `n` collected. */
  lemma CollectOne(result: Analysis, stream: Score, methods: seq<AnalysisMethod>, n: int)
    requires 0 <= n < |methods| && Collected(result, stream, methods, n)
    ensures Collected(result[methods[n].name := methods[n].compute(stream)], stream, methods, n + 1)
  {
    var m := methods[n];
    var next := result[m.name := m.compute(stream)];
    assert Names(methods[..n + 1]) == Names(methods[..n]) + {m.name} by {
      assert forall k :: 0 <= k < n ==> methods[..n + 1][k] == methods[..n][k];
      assert methods[..n + 1][n] == m;
    }
    forall k | 0 <= k < n + 1 && LastOfName(methods, k, n + 1)
      ensures next[methods[k].name] == methods[k].compute(stream)
    {
      if k < n {
        assert methods[k].name != m.name;
        assert LastOfName(methods, k, n);
      }
    }
  }

  /** `analyze`: the analysis of an adaptation melody's music21 stream. */
  method Analyze(melody: AdaptationMelodyData, methods: seq<AnalysisMethod>) returns (result: Analysis)
    ensures result.Keys == Names(methods)
    ensures forall i :: 0 <= i < |methods| ==>
              (forall j :: i < j < |methods| ==> methods[j].name != methods[i].name) ==>
              result[methods[i].name] == methods[i].compute(melody.sequence)
  {
    result := AnalyzeScore(melody.sequence, methods);
  }

  /** `analyze_md`: the same dictionary, computed on the music21 conversion of the
      pretty_midi sequence. */
  method AnalyzeMd(melody: MelodyData, methods: seq<AnalysisMethod>) returns (result: Analysis)
    ensures result.Keys == Names(methods)
    ensures forall i :: 0 <= i < |methods| ==>
              (forall j :: i < j < |methods| ==> methods[j].name != methods[i].name) ==>
              result[methods[i].name] == methods[i].compute(ToMusic21(melody.sequence))
  {
    var stream := ToMusic21(melody.sequence);
    result := AnalyzeScore(stream, methods);
  }
}
