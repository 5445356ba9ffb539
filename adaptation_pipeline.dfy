/** src/adaptation/adaptation_pipeline.py: an ordered list of adaptation
    operations, the union of the analyses they need, and an `execute` that
    threads the base melody through them in registration order. */
module AdaptationPipeline {
  import opened Outcomes
  import opened Music
  import opened MelodyData
  import opened AdaptationOperation

  /** The meta key the pipeline writes its running time under. */
  const DurationKey := "adaptation_duration"

  /** The union of the analyses the operations need. */
  function RequiredBy(ops: seq<Operation>): (r: set<string>)
    ensures forall x :: x in r <==> exists i :: 0 <= i < |ops| && x in ops[i].requiredAnalysis
  {
    if ops == [] then {}
    else
      var front := ops[..|ops| - 1];
      assert forall i :: 0 <= i < |front| ==> front[i] == ops[i];
      RequiredBy(front) + ops[|ops| - 1].requiredAnalysis
  }

  lemma {:induction false} RequiredByAppend(a: seq<Operation>, b: seq<Operation>)
    ensures RequiredBy(a + b) == RequiredBy(a) + RequiredBy(b)
  {
    forall x | x in RequiredBy(a + b) ensures x in RequiredBy(a) + RequiredBy(b) {
      var i :| 0 <= i < |a + b| && x in (a + b)[i].requiredAnalysis;
      if i < |a| {
        assert x in a[i].requiredAnalysis;
      } else {
        assert x in b[i - |a|].requiredAnalysis;
      }
    }
    forall x | x in RequiredBy(a) ensures x in RequiredBy(a + b) {
      var i :| 0 <= i < |a| && x in a[i].requiredAnalysis;
      assert (a + b)[i] == a[i];
    }
    forall x | x in RequiredBy(b) ensures x in RequiredBy(a + b) {
      var i :| 0 <= i < |b| && x in b[i].requiredAnalysis;
      assert (a + b)[|a| + i] == b[i];
    }
  }

  /** Where a run of operations stands: the state after the operations that
      succeeded, and the exception that stopped the run, if any. */
  datatype Outcome = Outcome(state: MelodyState, error: Option<Error>)

  /** The operations applied in order, each to the previous one's output, with
      the same control melody and control analysis; the first exception stops
      the run and leaves the state the previous operation produced. */
  function Run(ops: seq<Operation>, base: MelodyState, control: MelodyState, controlAnalysis: Analysis): Outcome
    decreases |ops|
  {
    if ops == [] then Outcome(base, None)
    else
      var before := Run(ops[..|ops| - 1], base, control, controlAnalysis);
      if before.error.Some? then before
      else match ops[|ops| - 1].execute(before.state, control, controlAnalysis)
        case Err(e) => Outcome(before.state, Some(e))
        case Ok(next) => Outcome(next, None)
  }

  /** Running `a + b` is running `a`, then (unless `a` failed) running `b` on
      what `a` produced. */
  lemma {:induction false} RunAppend(a: seq<Operation>, b: seq<Operation>, base: MelodyState, control: MelodyState, controlAnalysis: Analysis)
    ensures var first := Run(a, base, control, controlAnalysis);
      Run(a + b, base, control, controlAnalysis)
        == if first.error.Some? then first else Run(b, first.state, control, controlAnalysis)
    decreases |b|
  {
    if b != [] {
      var front := b[..|b| - 1];
      assert (a + b)[..|a + b| - 1] == a + front;
      RunAppend(a, front, base, control, controlAnalysis);
    } else {
      assert a + b == a;
    }
  }

  /** A single operation run alone is just that operation. */
  lemma RunSingle(op: Operation, base: MelodyState, control: MelodyState, controlAnalysis: Analysis)
    ensures var out := op.execute(base, control, controlAnalysis);
      Run([op], base, control, controlAnalysis)
        == if out.Ok? then Outcome(out.value, None) else Outcome(base, Some(out.error))
  {
    assert [op][..0] == [];
  }

  class Pipeline {
    var operations: seq<Operation>
    var requiredAnalysis: set<string>

    /** `_required_analysis` is the union of the registered operations' needs. */
    ghost predicate Valid()
      reads this
    {
      requiredAnalysis == RequiredBy(operations)
    }

    constructor ()
      ensures Valid()
      ensures operations == [] && requiredAnalysis == {}
    {
      operations := [];
      requiredAnalysis := {};
    }

    /** Appends one operation and adds its needs to the required analyses. */
    method Register(op: Operation)
      requires Valid()
      modifies this
      ensures Valid()
      ensures operations == old(operations) + [op]
      ensures requiredAnalysis == old(requiredAnalysis) + op.requiredAnalysis
    {
      assert (operations + [op])[..|operations|] == operations;
      operations := operations + [op];
      requiredAnalysis := requiredAnalysis + op.requiredAnalysis;
    }

    /** The `required_analysis` property. */
    function RequiredAnalysis(): (r: set<string>)
      requires Valid()
      reads this
      ensures forall x :: x in r <==> exists i :: 0 <= i < |operations| && x in operations[i].requiredAnalysis
    {
      requiredAnalysis
    }

    /** Runs the operations on `base` in order. `duration` stands for the
        measured running time, which is written to `meta` once every operation
        has succeeded. An exception leaves `base` as the failing operation
        found it. The pipeline itself and the control melody are not changed. */
    method Execute(base: AdaptationMelodyData, control: AdaptationMelodyData, controlAnalysis: Analysis, duration: real)
        returns (r: Result<()>)
      requires base != control
      modifies base
      ensures var out := Run(operations, old(base.State()), control.State(), controlAnalysis);
        && (out.error.None? ==>
              r == Ok(()) && base.State() == out.state.(meta := out.state.meta[DurationKey := Number(duration)]))
        && (out.error.Some? ==> r == Err(out.error.value) && base.State() == out.state)
    {
      var i := 0;
      while i < |operations|
        invariant 0 <= i <= |operations|
        invariant Run(operations[..i], old(base.State()), control.State(), controlAnalysis) == Outcome(base.State(), None)
      {
        assert operations[..i + 1][..i] == operations[..i];
        var out := operations[i].execute(base.State(), control.State(), controlAnalysis);
        if out.Err? {
          assert operations[..i + 1] + operations[i + 1..] == operations;
          RunAppend(operations[..i + 1], operations[i + 1..], old(base.State()), control.State(), controlAnalysis);
          return Err(out.error);
        }
        base.SetState(out.value);
        i := i + 1;
      }
      assert operations[..i] == operations;
      base.meta := base.meta[DurationKey := Number(duration)];
      return Ok(());
    }
  }
}
