/** The symbolic music the core works on: notes grouped into parts, with an
    optional time signature, plus the analysis and metadata maps that travel with
    a melody. music21 streams and pretty_midi objects both carry a `Score`. */
module Music {
  import opened Outcomes

  /** A time-signature numerator; music21 never builds one below 1. */
  type Numerator = n: int | n > 0 witness 4

  /** A note: MIDI pitch, start offset and length, both in quarter notes. */
  datatype Note = Note(pitch: int, offset: real, duration: real)

  datatype Score = Score(parts: seq<seq<Note>>, timeSignature: Option<Numerator>)

  /** A pretty_midi object. The conversions between it and a music21 stream are
      outside the core; they are modelled as lossless. */
  datatype PrettyMidi = PrettyMidi(score: Score)

  function ToMusic21(midi: PrettyMidi): Score { midi.score }

  function ToPrettyMidi(stream: Score): PrettyMidi { PrettyMidi(stream) }

  function NoteOffset(n: Note): real { n.offset }

  function NoteEnd(n: Note): real { n.offset + n.duration }

  /** `stream.flat.notes`: the notes of all parts in one sequence. */
  function FlatNotes(parts: seq<seq<Note>>): (r: seq<Note>)
    ensures forall i, k :: 0 <= i < |parts| && 0 <= k < |parts[i]| ==> parts[i][k] in r
    ensures forall n :: n in r ==> exists i :: 0 <= i < |parts| && n in parts[i]
  {
    if parts == [] then []
    else
      var rest := FlatNotes(parts[1..]);
      assert forall i :: 1 <= i < |parts| ==> parts[i] == parts[1..][i - 1];
      parts[0] + rest
  }

  /** `duration.quarterLength` of a stream of notes: the latest note end, or 0 for
      a stream without notes. */
  function HighestTime(notes: seq<Note>): (t: real)
    ensures t >= 0.0
    ensures forall n :: n in notes ==> NoteEnd(n) <= t
    ensures t == 0.0 || exists n :: n in notes && NoteEnd(n) == t
  {
    if notes == [] then 0.0
    else
      var rest := HighestTime(notes[1..]);
      assert forall n :: n in notes ==> n == notes[0] || n in notes[1..];
      if NoteEnd(notes[0]) > rest then NoteEnd(notes[0]) else rest
  }

  /** An analysis result. Only the per-beat offset lists are inspected by the core;
      every other kind of result (key estimates, spans, ...) is opaque. */
  datatype AnalysisValue = OffsetBuckets(buckets: seq<seq<real>>) | Opaque(tag: string)

  /** A metadata value: a number, a text, or a nested dictionary. */
  datatype MetaValue = Number(x: real) | Text(s: string) | Dict(entries: map<string, MetaValue>)

  type Analysis = map<string, AnalysisValue>

  type Meta = map<string, MetaValue>

  /** Python's `{**a, **b}` and `a.update(b)`: all keys of both, `b` winning on
      keys they share. */
  function Merge<V>(a: map<string, V>, b: map<string, V>): (r: map<string, V>)
    ensures r.Keys == a.Keys + b.Keys
    ensures forall k :: k in b ==> r[k] == b[k]
    ensures forall k :: k in a && k !in b ==> r[k] == a[k]
  {
    a + b
  }

  /** The value of an `AdaptationMelodyData` object: sequence, analysis and meta. */
  datatype MelodyState = MelodyState(sequence: Score, analysis: Analysis, meta: Meta)
}
