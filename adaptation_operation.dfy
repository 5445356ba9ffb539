/** The interface every adaptation operation offers the pipeline: the analysis
    results it needs from the control melody, and an `execute` that maps a base
    melody, a control melody and the control's analysis to the adapted base. */
module AdaptationOperation {
  import opened Outcomes
  import opened Music

  /** An operation; its `execute` is any function of the three inputs, failing
      with a Python exception or producing the adapted base. */
  datatype Operation = Operation(
    name: string,
    requiredAnalysis: set<string>,
    execute: (MelodyState, MelodyState, Analysis) -> Result<MelodyState>)
}
