/** src/datatypes/melody_data.py: the two melody containers. `AdaptationMelodyData`
    holds a music21 stream while it is being adapted; `MelodyData` holds a
    pretty_midi sequence with its analysis, metadata and evaluation. */
module MelodyData {
  import opened Outcomes
  import opened Music

  /** definitions.py's `SequenceType`. */
  datatype SequenceType = RecInput | FileInput | GenBase | Output

  class AdaptationMelodyData {
    var sequence: Score
    var analysis: Analysis
    var meta: Meta

    constructor (sequence: Score)
      ensures this.sequence == sequence
      ensures analysis == map[] && meta == map[]
    {
      this.sequence := sequence;
      analysis := map[];
      meta := map[];
    }

    function State(): MelodyState
      reads this
    {
      MelodyState(sequence, analysis, meta)
    }

    /** Overwrites the object with a state an operation produced for it. */
    method SetState(s: MelodyState)
      modifies this
      ensures State() == s
    {
      sequence, analysis, meta := s.sequence, s.analysis, s.meta;
    }
  }

  class MelodyData {
    var sequence: PrettyMidi
    var sequenceType: SequenceType
    var meta: Meta
    var analysis: Analysis
    var evaluation: Meta

    /** Missing `analysis` and `evaluation` arguments (Python's `None`) become
        empty dictionaries; given ones are kept as they are. */
    constructor (sequence: PrettyMidi, sequenceType: SequenceType, meta: Meta,
                 analysis: Option<Analysis>, evaluation: Option<Meta>)
      ensures this.sequence == sequence && this.sequenceType == sequenceType && this.meta == meta
      ensures this.analysis == (if analysis.Some? then analysis.value else map[])
      ensures this.evaluation == (if evaluation.Some? then evaluation.value else map[])
    {
      this.sequence := sequence;
      this.sequenceType := sequenceType;
      this.meta := meta;
      this.analysis := if analysis.Some? then analysis.value else map[];
      this.evaluation := if evaluation.Some? then evaluation.value else map[];
    }

    /** `to_adaptation_data`: a new object holding the converted sequence and
        nothing else, whatever analysis and metadata this object has. */
    method ToAdaptationData() returns (data: AdaptationMelodyData)
      ensures fresh(data)
      ensures data.sequence == ToMusic21(sequence)
      ensures data.analysis == map[] && data.meta == map[]
    {
      data := new AdaptationMelodyData(ToMusic21(sequence));
    }

    /** `update_sequence_from_adaptation_data`. The sequence is replaced and the
        analysis merged (the adapted data winning) before the metadata step, so
        when `meta['adaptation']` holds something other than a dictionary the
        `update` call raises after the first two changes have been made. */
    method UpdateSequenceFromAdaptationData(data: AdaptationMelodyData) returns (r: Result<()>)
      modifies this
      ensures sequence == ToPrettyMidi(data.sequence)
      ensures analysis == Merge(old(analysis), data.analysis)
      ensures sequenceType == old(sequenceType) && evaluation == old(evaluation)
      ensures "adaptation" !in old(meta) ==>
                r.Ok? && meta == old(meta)["adaptation" := Dict(data.meta)]
      ensures "adaptation" in old(meta) && old(meta)["adaptation"].Dict? ==>
                r.Ok? && meta == old(meta)["adaptation" := Dict(Merge(old(meta)["adaptation"].entries, data.meta))]
      ensures "adaptation" in old(meta) && !old(meta)["adaptation"].Dict? ==>
                r.Err? && meta == old(meta)
    {
      sequence := ToPrettyMidi(data.sequence);
      analysis := Merge(analysis, data.analysis);
      if "adaptation" !in meta {
        meta := meta["adaptation" := Dict(data.meta)];
        r := Ok(());
      } else if meta["adaptation"].Dict? {
        meta := meta["adaptation" := Dict(Merge(meta["adaptation"].entries, data.meta))];
        r := Ok(());
      } else {
        r := Err(AttributeError("update"));
      }
    }
  }
}
