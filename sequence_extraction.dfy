/** src/utils/sequence_extraction.py: cuts the melody track of a song into
    consecutive excerpts of a fixed number of bars, alternately saved as a call
    and a response file. File writes are recorded as `Written` events, and
    whether a write succeeds is a parameter. */
module SequenceExtraction {
  import opened Outcomes
  import opened PythonNumbers

  /** A muspy note; `time` and `duration` are in time steps until the note is
      extracted, in seconds afterwards. */
  datatype MNote = MNote(time: real, pitch: int, duration: real, velocity: int)

  datatype Track = Track(name: string, notes: seq<MNote>)

  datatype TimeSignature = TimeSignature(numerator: int, denominator: int)

  /** A muspy Music object: resolution (time steps per quarter note), time
      signatures, tempos (quarter notes per minute) and tracks. */
  datatype Song = Song(resolution: int, timeSignatures: seq<TimeSignature>, tempos: seq<real>, tracks: seq<Track>)

  // ---------------------------------------------------------------------------
  // Helpers

  function LowerChar(c: char): char {
    if 'A' <= c <= 'Z' then (c as int + 32) as char else c
  }

  /** `str.lower` on ASCII letters. */
  function Lower(s: string): (r: string)
    ensures |r| == |s|
  {
    seq(|s|, i requires 0 <= i < |s| => LowerChar(s[i]))
  }

  /** Lower-casing leaves no upper-case ASCII letter, keeps every other
      character, and is idempotent. */
  lemma LowerProperties(s: string)
    ensures forall i :: 0 <= i < |s| ==> !('A' <= Lower(s)[i] <= 'Z')
    ensures forall i :: 0 <= i < |s| && !('A' <= s[i] <= 'Z') ==> Lower(s)[i] == s[i]
    ensures Lower(Lower(s)) == Lower(s)
  {
  }

  predicate IsMelodyName(name: string) {
    Lower(name) == "melody" || Lower(name) == "vocals" || Lower(name) == "mel"
  }

  /** `get_melody_track`: the first track named melody, vocals or mel, in any
      case, or None. */
  function GetMelodyTrack(tracks: seq<Track>): (r: Option<Track>)
    ensures r.None? <==> forall i :: 0 <= i < |tracks| ==> !IsMelodyName(tracks[i].name)
    ensures r.Some? ==> exists i :: 0 <= i < |tracks| && tracks[i] == r.value && IsMelodyName(tracks[i].name)
                                    && forall j :: 0 <= j < i ==> !IsMelodyName(tracks[j].name)
  {
    if tracks == [] then None
    else if IsMelodyName(tracks[0].name) then Some(tracks[0])
    else
      var rest := GetMelodyTrack(tracks[1..]);
      assert forall i :: 1 <= i < |tracks| ==> tracks[i] == tracks[1..][i - 1];
      if rest.Some? then
        var i :| 0 <= i < |tracks[1..]| && tracks[1..][i] == rest.value && IsMelodyName(tracks[1..][i].name)
                 && forall j :: 0 <= j < i ==> !IsMelodyName(tracks[1..][j].name);
        assert tracks[i + 1] == rest.value;
        rest
      else rest
  }

  /** `convert_time_steps_to_seconds`: time steps divided by the time steps per
      second; a zero rate is a `ZeroDivisionError`. */
  function ConvertTimeStepsToSeconds(timeSteps: real, bpm: real, resolution: real): (r: Result<real>)
    ensures r.Err? <==> bpm / 60.0 * resolution == 0.0
    ensures r.Err? ==> r.error == ZeroDivisionError
    ensures r.Ok? ==> r.value * (bpm / 60.0 * resolution) == timeSteps
  {
    var rate := bpm / 60.0 * resolution;
    if rate == 0.0 then Err(ZeroDivisionError) else Ok(timeSteps / rate)
  }

  /** The first statement of `__extract_note`, which changes the note in place
      before any conversion can fail: its time made relative to the window start. */
  function Shift(note: MNote, windowStart: real): MNote {
    note.(time := note.time - windowStart)
  }

  /** `__extract_note`: the note's time made relative to the window start, then
      time and duration converted to seconds. Both conversions divide by the same
      rate, so the note fails exactly when that rate is zero, and then only the
      shift has happened (see `Shift`). */
  function ExtractNote(note: MNote, windowStart: real, bpm: real, resolution: real): (r: Result<MNote>)
    ensures r.Err? <==> bpm / 60.0 * resolution == 0.0
    ensures r.Err? ==> r.error == ZeroDivisionError
    ensures r.Ok? ==>
      && r.value.time * (bpm / 60.0 * resolution) == note.time - windowStart
      && r.value.duration * (bpm / 60.0 * resolution) == note.duration
      && r.value.pitch == note.pitch && r.value.velocity == note.velocity
  {
    match ConvertTimeStepsToSeconds(note.time - windowStart, bpm, resolution)
    case Err(e) => Err(e)
    case Ok(time) =>
      match ConvertTimeStepsToSeconds(note.duration, bpm, resolution)
      case Err(e) => Err(e)
      case Ok(duration) => Ok(note.(time := time, duration := duration))
  }

  function Digit(d: nat): char
    requires d < 10
  {
    ('0' as int + d) as char
  }

  predicate AllDigits(s: string) {
    forall i :: 0 <= i < |s| ==> '0' <= s[i] <= '9'
  }

  /** The number a string of decimal digits stands for. */
  function DigitsValue(s: string): nat
    requires AllDigits(s)
  {
    if s == [] then 0 else DigitsValue(s[..|s| - 1]) * 10 + (s[|s| - 1] as int - '0' as int)
  }

  /** `str(n)`: the decimal digits of `n`; see `DecimalDigits`. */
  function Decimal(n: nat): (r: string)
    ensures |r| >= 1
    ensures n < 10 ==> |r| == 1
    ensures 10 <= n < 100 ==> |r| == 2
  {
    if n < 10 then [Digit(n)] else Decimal(n / 10) + [Digit(n % 10)]
  }

  /** `'{:02d}'.format(n)`: at least two digits, zero padded; see `Pad2Digits`. */
  function Pad2(n: nat): (r: string)
    ensures |r| >= 2
    ensures n < 100 ==> |r| == 2
  {
    if n < 10 then ['0', Digit(n)] else Decimal(n)
  }

  /** `Decimal(n)` is made of digits, stands for `n` and has no leading zero. */
  lemma {:induction false} DecimalDigits(n: nat)
    ensures AllDigits(Decimal(n)) && DigitsValue(Decimal(n)) == n
    ensures |Decimal(n)| > 1 ==> Decimal(n)[0] != '0'
  {
    if n >= 10 {
      DecimalDigits(n / 10);
      var r := Decimal(n);
      assert r[..|r| - 1] == Decimal(n / 10);
    }
  }

  /** `Pad2(n)` stands for `n`, and begins with a padding zero exactly when `n`
      has one digit. */
  lemma Pad2Digits(n: nat)
    ensures AllDigits(Pad2(n)) && DigitsValue(Pad2(n)) == n
    ensures Pad2(n)[0] == '0' <==> n < 10
  {
    DecimalDigits(n);
    if n < 10 {
      var r := Pad2(n);
      assert r[..1] == ['0'] && ['0'][..0] == [];
    }
  }

  /** The file name of the `count`-th call or response. */
  function ExcerptName(count: nat, isCall: bool): string {
    Pad2(count) + (if isCall then "_call.mid" else "_response.mid")
  }

  function BasePath(setName: string, songName: string): string {
    "../data/reference_data/" + setName + "/" + songName + "/"
  }

  /** One `muspy.write_midi` call: the path and the excerpt's notes. */
  datatype Written = Written(path: string, excerpt: seq<MNote>)

  // ---------------------------------------------------------------------------
  // The windowing loop as a fold over the notes

  datatype Status = Running | WriteFailed | Raised(error: Error)

  /** Fixed for one run: the output folder, the time the first window starts at,
      the window width in time steps, and the tempo and resolution used for the
      conversion to seconds. */
  datatype Setup = Setup(basePath: string, startingTime: real, width: real, bpm: real, resolution: real)

  /** The loop variables: `is_call`, `count`, the two time markers, the current
      excerpt, the files written so far, and the track's notes (extracted notes
      are changed in place). */
  datatype Cutter = Cutter(status: Status, isCall: bool, count: nat, start: real, end: real,
                           excerpt: seq<MNote>, writes: seq<Written>, notes: seq<MNote>)

  /** A note inside the window: extracted and appended to the excerpt. When the
      conversion fails, the note is left shifted and the run stops. */
  function Extend(c: Cutter, setup: Setup, k: nat): (r: Cutter)
    requires k < |c.notes|
    ensures |r.notes| == |c.notes| && r.writes == c.writes
  {
    match ExtractNote(c.notes[k], c.start, setup.bpm, setup.resolution)
    case Err(e) => c.(status := Raised(e), notes := c.notes[k := Shift(c.notes[k], c.start)])
    case Ok(n) => c.(excerpt := c.excerpt + [n], notes := c.notes[k := n])
  }

  /** A note at or past the window end, once the excerpt has been written to
      `path`: a new excerpt, the window moved on by its width, the note
      extracted into the new excerpt, then `count` and `is_call` updated. When
      the conversion fails, the note is left shifted and the run stops. */
  function Cross(c: Cutter, setup: Setup, k: nat, path: string): (r: Cutter)
    requires k < |c.notes|
    ensures |r.notes| == |c.notes| && r.writes == c.writes + [Written(path, c.excerpt)]
    ensures r.start == c.end && r.end == c.end + setup.width
  {
    var writes := c.writes + [Written(path, c.excerpt)];
    var start := c.end;
    match ExtractNote(c.notes[k], start, setup.bpm, setup.resolution)
    case Err(e) =>
      c.(status := Raised(e), excerpt := [], writes := writes, start := start, end := start + setup.width,
         notes := c.notes[k := Shift(c.notes[k], start)])
    case Ok(n) =>
      Cutter(Running, !c.isCall, if c.isCall then c.count else c.count + 1, start, start + setup.width,
             [n], writes, c.notes[k := n])
  }

  /** The loop body for the `k`-th note. */
  function Step(c: Cutter, setup: Setup, canWrite: string -> bool, k: nat): (r: Cutter)
    requires k < |c.notes|
    ensures |r.notes| == |c.notes|
  {
    if !c.status.Running? || c.notes[k].time < setup.startingTime then c
    else if c.notes[k].time < c.end then Extend(c, setup, k)
    else
      var path := setup.basePath + ExcerptName(c.count, c.isCall);
      if !canWrite(path) then c.(status := WriteFailed)
      else Cross(c, setup, k, path)
  }

  /** The loop after its first `k` iterations. */
  function Scan(c0: Cutter, setup: Setup, canWrite: string -> bool, k: nat): (r: Cutter)
    requires k <= |c0.notes|
    ensures |r.notes| == |c0.notes|
  {
    if k == 0 then c0 else Step(Scan(c0, setup, canWrite, k - 1), setup, canWrite, k - 1)
  }

  /** A run that has stopped stays stopped. */
  lemma {:induction false} ScanStays(c0: Cutter, setup: Setup, canWrite: string -> bool, k: nat, n: nat)
    requires k <= n <= |c0.notes|
    requires !Scan(c0, setup, canWrite, k).status.Running?
    ensures Scan(c0, setup, canWrite, n) == Scan(c0, setup, canWrite, k)
    decreases n - k
  {
    if k < n {
      ScanStays(c0, setup, canWrite, k, n - 1);
    }
  }

  /** The result of `extract_melodies_to_folder`: its return value (or the
      exception it raised), the files it wrote, and the melody track's notes
      afterwards. */
  datatype Extracted = Extracted(outcome: Result<int>, writes: seq<Written>, notes: seq<MNote>)

  function TimeStepsPerBar(song: Song): real
    requires song.timeSignatures != [] && song.timeSignatures[0].denominator != 0
  {
    (song.resolution * song.timeSignatures[0].numerator * 4) as real / song.timeSignatures[0].denominator as real
  }

  /** The first window starts at the bar line nearest the first note. */
  function StartingTime(song: Song, track: Track): real
    requires song.timeSignatures != [] && song.timeSignatures[0].denominator != 0
    requires track.notes != [] && TimeStepsPerBar(song) != 0.0
  {
    RoundHalfEven(track.notes[0].time / TimeStepsPerBar(song)) as real * TimeStepsPerBar(song)
  }

  /** Everything the source reads before its loop is there. */
  predicate Ready(song: Song, track: Track) {
    && song.timeSignatures != [] && song.timeSignatures[0].denominator != 0
    && track.notes != [] && TimeStepsPerBar(song) != 0.0 && song.tempos != []
  }

  function LoopSetup(song: Song, track: Track, songName: string, setName: string, lengthInBars: int): Setup
    requires Ready(song, track)
  {
    Setup(BasePath(setName, songName), StartingTime(song, track), TimeStepsPerBar(song) * lengthInBars as real,
          song.tempos[0], song.resolution as real)
  }

  /** The loop variables before the first iteration. */
  function LoopStart(setup: Setup, track: Track): Cutter {
    Cutter(Running, true, 1, setup.startingTime, setup.startingTime + setup.width, [], [], track.notes)
  }

  /** The loop variables after the last iteration. */
  function LoopEnd(song: Song, track: Track, songName: string, setName: string, lengthInBars: int,
                   canWrite: string -> bool): Cutter
    requires Ready(song, track)
  {
    var setup := LoopSetup(song, track, songName, setName, lengthInBars);
    Scan(LoopStart(setup, track), setup, canWrite, |track.notes|)
  }

  /** The whole function, in the order the source fails: no time signature, a
      zero denominator, an empty track, a zero bar length, no tempo. */
  function ExtractMelodies(song: Song, songName: string, setName: string, lengthInBars: int,
                           canWrite: string -> bool): (r: Extracted)
    ensures GetMelodyTrack(song.tracks).None? ==> r == Extracted(Ok(0), [], [])
    ensures GetMelodyTrack(song.tracks).Some? && !Ready(song, GetMelodyTrack(song.tracks).value) ==>
              r.outcome.Err? && r.writes == []
    ensures GetMelodyTrack(song.tracks).Some? && Ready(song, GetMelodyTrack(song.tracks).value) ==>
              var c := LoopEnd(song, GetMelodyTrack(song.tracks).value, songName, setName, lengthInBars, canWrite);
              && r.writes == c.writes && r.notes == c.notes
              && (r.outcome == Ok(1) <==> c.status.Running?)
              && (r.outcome == Ok(-1) <==> c.status.WriteFailed?)
  {
    var found := GetMelodyTrack(song.tracks);
    if found.None? then Extracted(Ok(0), [], [])
    else
      var track := found.value;
      if song.timeSignatures == [] then Extracted(Err(IndexError("time_signatures[0]")), [], track.notes)
      else if song.timeSignatures[0].denominator == 0 then Extracted(Err(ZeroDivisionError), [], track.notes)
      else if track.notes == [] then Extracted(Err(IndexError("notes[0]")), [], track.notes)
      else if TimeStepsPerBar(song) == 0.0 then Extracted(Err(ZeroDivisionError), [], track.notes)
      else if song.tempos == [] then Extracted(Err(IndexError("tempos[0]")), [], track.notes)
      else
        var c := LoopEnd(song, track, songName, setName, lengthInBars, canWrite);
        var outcome := match c.status
          case Running => Ok(1)
          case WriteFailed => Ok(-1)
          case Raised(e) => Err(e);
        Extracted(outcome, c.writes, c.notes)
  }

  /** `extract_melodies_to_folder` as the source runs it: one pass over the
      melody track's notes, updating `is_call`, `count`, the time markers and
      the excerpt, and changing every extracted note in place. */
  method ExtractMelodiesToFolder(song: Song, songName: string, setName: string, lengthInBars: int,
                                 canWrite: string -> bool)
      returns (r: Extracted)
    ensures r == ExtractMelodies(song, songName, setName, lengthInBars, canWrite)
  {
    var found := GetMelodyTrack(song.tracks);
    if found.None? {
      return Extracted(Ok(0), [], []);
    }
    var track := found.value;
    if song.timeSignatures == [] {
      return Extracted(Err(IndexError("time_signatures[0]")), [], track.notes);
    }
    if song.timeSignatures[0].denominator == 0 {
      return Extracted(Err(ZeroDivisionError), [], track.notes);
    }
    var timeStepsPerBar := TimeStepsPerBar(song);
    if track.notes == [] {
      return Extracted(Err(IndexError("notes[0]")), [], track.notes);
    }
    if timeStepsPerBar == 0.0 {
      return Extracted(Err(ZeroDivisionError), [], track.notes);
    }
    var startingBar := RoundHalfEven(track.notes[0].time / timeStepsPerBar);
    var startingTime := startingBar as real * timeStepsPerBar;
    var width := timeStepsPerBar * lengthInBars as real;
    var basePath := BasePath(setName, songName);
    if song.tempos == [] {
      return Extracted(Err(IndexError("tempos[0]")), [], track.notes);
    }
    var setup := Setup(basePath, startingTime, width, song.tempos[0], song.resolution as real);
    assert setup == LoopSetup(song, track, songName, setName, lengthInBars);
    ghost var c0 := LoopStart(setup, track);
    // is_call, count, the time markers, the excerpt, the files written, the notes
    var c := Cutter(Running, true, 1, startingTime, startingTime + width, [], [], track.notes);
    var k := 0;
    while k < |c.notes|
      invariant 0 <= k <= |c.notes| == |track.notes|
      invariant c.status.Running? && Scan(c0, setup, canWrite, k) == c
    {
      c := VisitNote(c, setup, canWrite, k);
      if !c.status.Running? {
        ScanStays(c0, setup, canWrite, k + 1, |track.notes|);
        var outcome := if c.status.WriteFailed? then Ok(-1) else Err(c.status.error);
        return Extracted(outcome, c.writes, c.notes);
      }
      k := k + 1;
    }
    return Extracted(Ok(1), c.writes, c.notes);
  }

  /** The loop body for the `k`-th note: skipped before the starting time,
      extracted into the excerpt inside the window, and at or past the window
      end the excerpt is written and a new window begins with this note. */
  method VisitNote(c: Cutter, setup: Setup, canWrite: string -> bool, k: nat) returns (r: Cutter)
    requires c.status.Running? && k < |c.notes|
    ensures r == Step(c, setup, canWrite, k)
  {
    var note := c.notes[k];
    if note.time < setup.startingTime {
      return c;
    } else if note.time < c.end {
      var extracted := ExtractNote(note, c.start, setup.bpm, setup.resolution);
      if extracted.Err? {
        return c.(status := Raised(extracted.error), notes := c.notes[k := Shift(note, c.start)]);
      }
      return c.(excerpt := c.excerpt + [extracted.value], notes := c.notes[k := extracted.value]);
    } else {
      var path := setup.basePath + ExcerptName(c.count, c.isCall);
      if !canWrite(path) {
        return c.(status := WriteFailed);
      }
      var writes := c.writes + [Written(path, c.excerpt)];
      var start := c.end;
      var end := start + setup.width;
      var extracted := ExtractNote(note, start, setup.bpm, setup.resolution);
      if extracted.Err? {
        return c.(status := Raised(extracted.error), excerpt := [], writes := writes, start := start, end := end,
                  notes := c.notes[k := Shift(note, start)]);
      }
      var count := if c.isCall then c.count else c.count + 1;
      return Cutter(Running, !c.isCall, count, start, end, [extracted.value], writes, c.notes[k := extracted.value]);
    }
  }

  // ---------------------------------------------------------------------------
  // Properties of the windowing loop

  /** The notes of the written excerpts, one file after the other. */
  function WrittenExcerpts(writes: seq<Written>): seq<MNote> {
    if writes == [] then [] else WrittenExcerpts(writes[..|writes| - 1]) + writes[|writes| - 1].excerpt
  }

  /** Of the first `k` notes, those at or after the starting time (judged by
      their times `orig` before the loop), as they are in `now`. */
  function KeptNotes(orig: seq<MNote>, now: seq<MNote>, startingTime: real, k: nat): seq<MNote>
    requires k <= |orig| == |now|
  {
    if k == 0 then []
    else KeptNotes(orig, now, startingTime, k - 1) + (if orig[k - 1].time >= startingTime then [now[k - 1]] else [])
  }

  /** Only the first `k` notes of `now` matter. */
  lemma {:induction false} KeptNotesPrefix(orig: seq<MNote>, a: seq<MNote>, b: seq<MNote>, startingTime: real, k: nat)
    requires k <= |orig| == |a| == |b|
    requires forall j :: 0 <= j < k ==> a[j] == b[j]
    ensures KeptNotes(orig, a, startingTime, k) == KeptNotes(orig, b, startingTime, k)
  {
    if k > 0 {
      KeptNotesPrefix(orig, a, b, startingTime, k - 1);
    }
  }

  /** The start of the window after `n` moves. */
  function WindowStart(setup: Setup, n: nat): real {
    if n == 0 then setup.startingTime else WindowStart(setup, n - 1) + setup.width
  }

  /** Each move advances the window by exactly one width (`length_in_bars` bars). */
  lemma {:induction false} WindowStartIs(setup: Setup, n: nat)
    ensures WindowStart(setup, n) == setup.startingTime + n as real * setup.width
  {
    if n > 0 {
      WindowStartIs(setup, n - 1);
      assert n as real * setup.width == (n - 1) as real * setup.width + setup.width;
    }
  }

  /** The `i`-th file written is `NN_call` for even `i` and `NN_response` for odd
      `i`, with `NN` = 1 + i/2. */
  ghost predicate NamesInv(writes: seq<Written>, basePath: string) {
    forall i :: 0 <= i < |writes| ==> writes[i].path == basePath + ExcerptName(1 + i / 2, i % 2 == 0)
  }

  /** Notes not yet visited, and notes before the starting time, are as they
      were; every note keeps its pitch and velocity. */
  ghost predicate NotesInv(c0: Cutter, c: Cutter, startingTime: real, k: nat)
    requires k <= |c0.notes| == |c.notes|
  {
    && (forall j :: k <= j < |c.notes| ==> c.notes[j] == c0.notes[j])
    && (forall j :: 0 <= j < k && c0.notes[j].time < startingTime ==> c.notes[j] == c0.notes[j])
    && (forall j :: 0 <= j < |c.notes| ==> c.notes[j].pitch == c0.notes[j].pitch && c.notes[j].velocity == c0.notes[j].velocity)
  }

  /** While running, `count` and `is_call` follow from the number of files
      written, the window has moved on by one width per file, and the notes kept
      so far, as extracted, are those written followed by those of the current
      excerpt, which is not empty once a note has been kept. */
  ghost predicate RunningInv(c0: Cutter, c: Cutter, setup: Setup, k: nat)
    requires k <= |c0.notes| == |c.notes|
  {
    c.status.Running? ==>
      && c.count == 1 + |c.writes| / 2
      && c.isCall == (|c.writes| % 2 == 0)
      && c.start == WindowStart(setup, |c.writes|)
      && c.end == c.start + setup.width
      && WrittenExcerpts(c.writes) + c.excerpt == KeptNotes(c0.notes, c.notes, setup.startingTime, k)
      && (KeptNotes(c0.notes, c.notes, setup.startingTime, k) != [] ==> c.excerpt != [])
  }

  /** What holds after every iteration of the windowing loop. */
  ghost predicate CutterInv(c0: Cutter, c: Cutter, setup: Setup, k: nat)
    requires k <= |c0.notes| == |c.notes|
  {
    NamesInv(c.writes, setup.basePath) && NotesInv(c0, c, setup.startingTime, k) && RunningInv(c0, c, setup, k)
  }

  lemma ExtendInv(c0: Cutter, c: Cutter, setup: Setup, k: nat)
    requires k < |c0.notes| == |c.notes|
    requires CutterInv(c0, c, setup, k)
    requires c.status.Running? && c.notes[k].time >= setup.startingTime && c.notes[k].time < c.end
    ensures CutterInv(c0, Extend(c, setup, k), setup, k + 1)
  {
    var r := Extend(c, setup, k);
    var e := ExtractNote(c.notes[k], c.start, setup.bpm, setup.resolution);
    assert c.notes[k] == c0.notes[k];
    if e.Ok? {
      assert r == c.(excerpt := c.excerpt + [e.value], notes := c.notes[k := e.value]);
      KeptNotesPrefix(c0.notes, r.notes, c.notes, setup.startingTime, k);
      assert KeptNotes(c0.notes, r.notes, setup.startingTime, k + 1)
          == KeptNotes(c0.notes, c.notes, setup.startingTime, k) + [e.value];
      assert RunningInv(c0, r, setup, k + 1);
      assert NotesInv(c0, r, setup.startingTime, k + 1);
    } else {
      assert r == c.(status := Raised(e.error), notes := c.notes[k := Shift(c.notes[k], c.start)]);
      assert NotesInv(c0, r, setup.startingTime, k + 1);
    }
  }

  lemma CrossNames(c: Cutter, setup: Setup, k: nat, path: string)
    requires k < |c.notes| && NamesInv(c.writes, setup.basePath)
    requires c.status.Running? && c.count == 1 + |c.writes| / 2 && c.isCall == (|c.writes| % 2 == 0)
    requires path == setup.basePath + ExcerptName(c.count, c.isCall)
    ensures NamesInv(Cross(c, setup, k, path).writes, setup.basePath)
  {
    var writes := Cross(c, setup, k, path).writes;
    var w := |c.writes|;
    assert writes[w].path == path;
    forall i | 0 <= i < |writes|
      ensures writes[i].path == setup.basePath + ExcerptName(1 + i / 2, i % 2 == 0)
    {
      if i < w {
        assert writes[i] == c.writes[i];
      }
    }
  }

  lemma CrossRunning(c0: Cutter, c: Cutter, setup: Setup, k: nat, path: string)
    requires k < |c0.notes| == |c.notes|
    requires RunningInv(c0, c, setup, k) && c.status.Running?
    requires c.notes[k] == c0.notes[k] && c.notes[k].time >= setup.startingTime
    ensures RunningInv(c0, Cross(c, setup, k, path), setup, k + 1)
  {
    var r := Cross(c, setup, k, path);
    var w := |c.writes|;
    if r.status.Running? {
      assert r.writes[..w] == c.writes;
      assert WrittenExcerpts(r.writes) == WrittenExcerpts(c.writes) + c.excerpt;
      KeptNotesPrefix(c0.notes, r.notes, c.notes, setup.startingTime, k);
      assert KeptNotes(c0.notes, r.notes, setup.startingTime, k + 1)
          == KeptNotes(c0.notes, c.notes, setup.startingTime, k) + [r.notes[k]];
      if c.isCall {
        assert w % 2 == 0 && (w + 1) / 2 == w / 2;
      } else {
        assert w % 2 == 1 && (w + 1) / 2 == w / 2 + 1;
      }
      assert r.start == WindowStart(setup, w + 1);
    }
  }

  lemma CrossInv(c0: Cutter, c: Cutter, setup: Setup, k: nat, path: string)
    requires k < |c0.notes| == |c.notes|
    requires CutterInv(c0, c, setup, k)
    requires c.status.Running? && c.notes[k].time >= setup.startingTime
    requires path == setup.basePath + ExcerptName(c.count, c.isCall)
    ensures CutterInv(c0, Cross(c, setup, k, path), setup, k + 1)
  {
    assert c.notes[k] == c0.notes[k];
    CrossNames(c, setup, k, path);
    CrossRunning(c0, c, setup, k, path);
  }

  /** One iteration keeps `CutterInv`. */
  lemma StepInv(c0: Cutter, c: Cutter, setup: Setup, canWrite: string -> bool, k: nat)
    requires k < |c0.notes| == |c.notes|
    requires CutterInv(c0, c, setup, k)
    ensures CutterInv(c0, Step(c, setup, canWrite, k), setup, k + 1)
  {
    assert c.notes[k] == c0.notes[k];
    if !c.status.Running? || c.notes[k].time < setup.startingTime {
      assert Step(c, setup, canWrite, k) == c;
      if c.status.Running? {
        assert KeptNotes(c0.notes, c.notes, setup.startingTime, k + 1) == KeptNotes(c0.notes, c.notes, setup.startingTime, k);
      }
    } else if c.notes[k].time < c.end {
      ExtendInv(c0, c, setup, k);
    } else if canWrite(setup.basePath + ExcerptName(c.count, c.isCall)) {
      CrossInv(c0, c, setup, k, setup.basePath + ExcerptName(c.count, c.isCall));
    }
  }

  lemma {:induction false} ScanInv(c0: Cutter, setup: Setup, canWrite: string -> bool, k: nat)
    requires k <= |c0.notes|
    requires c0 == Cutter(Running, true, 1, setup.startingTime, setup.startingTime + setup.width, [], [], c0.notes)
    ensures CutterInv(c0, Scan(c0, setup, canWrite, k), setup, k)
  {
    if k > 0 {
      ScanInv(c0, setup, canWrite, k - 1);
      StepInv(c0, Scan(c0, setup, canWrite, k - 1), setup, canWrite, k - 1);
    }
  }

  /** The invariant at the end of the loop. */
  lemma LoopEndInv(song: Song, track: Track, songName: string, setName: string, lengthInBars: int, canWrite: string -> bool)
    requires Ready(song, track)
    ensures var setup := LoopSetup(song, track, songName, setName, lengthInBars);
      CutterInv(LoopStart(setup, track), LoopEnd(song, track, songName, setName, lengthInBars, canWrite), setup, |track.notes|)
  {
    var setup := LoopSetup(song, track, songName, setName, lengthInBars);
    ScanInv(LoopStart(setup, track), setup, canWrite, |track.notes|);
  }

  /** The files are `01_call`, `01_response`, `02_call`, `02_response`, ... */
  lemma ExtractedNames(song: Song, songName: string, setName: string, lengthInBars: int, canWrite: string -> bool)
    ensures var r := ExtractMelodies(song, songName, setName, lengthInBars, canWrite);
      forall i :: 0 <= i < |r.writes| ==>
        r.writes[i].path == BasePath(setName, songName) + ExcerptName(1 + i / 2, i % 2 == 0)
  {
    var found := GetMelodyTrack(song.tracks);
    if found.Some? && Ready(song, found.value) {
      LoopEndInv(song, found.value, songName, setName, lengthInBars, canWrite);
    }
  }

  /** On success the written files hold the kept notes (those at or after the
      starting time), as extracted and in order, but not all of them: the last
      excerpt, which holds at least one kept note, is never written. Every note
      keeps its pitch and velocity. */
  lemma LastExcerptDropped(song: Song, songName: string, setName: string, lengthInBars: int, canWrite: string -> bool)
    requires ExtractMelodies(song, songName, setName, lengthInBars, canWrite).outcome == Ok(1)
    ensures GetMelodyTrack(song.tracks).Some? && Ready(song, GetMelodyTrack(song.tracks).value)
    ensures |ExtractMelodies(song, songName, setName, lengthInBars, canWrite).notes|
            == |GetMelodyTrack(song.tracks).value.notes|
    ensures var track := GetMelodyTrack(song.tracks).value;
      var r := ExtractMelodies(song, songName, setName, lengthInBars, canWrite);
      var kept := KeptNotes(track.notes, r.notes, StartingTime(song, track), |track.notes|);
      && WrittenExcerpts(r.writes) <= kept
      && (kept != [] ==> |WrittenExcerpts(r.writes)| < |kept|)
      && forall j :: 0 <= j < |r.notes| ==>
           r.notes[j].pitch == track.notes[j].pitch && r.notes[j].velocity == track.notes[j].velocity
  {
    LoopEndInv(song, GetMelodyTrack(song.tracks).value, songName, setName, lengthInBars, canWrite);
  }

  /** A first note past the middle of its bar is dropped: with four time steps
      to the bar, a note at step 3 rounds the start up to step 4, so only the
      second note is extracted (at 0 s, half a second long at 120 bpm), and no
      file is written because no note crosses the window end. */
  lemma FirstNoteDropped()
    ensures var song := Song(1, [TimeSignature(4, 4)], [120.0],
                             [Track("melody", [MNote(3.0, 60, 1.0, 100), MNote(4.0, 62, 1.0, 100)])]);
      ExtractMelodies(song, "song", "set", 2, (path: string) => true)
        == Extracted(Ok(1), [], [MNote(3.0, 60, 1.0, 100), MNote(0.0, 62, 0.5, 100)])
  {
    var song := Song(1, [TimeSignature(4, 4)], [120.0],
                     [Track("melody", [MNote(3.0, 60, 1.0, 100), MNote(4.0, 62, 1.0, 100)])]);
    assert Lower("melody") == "melody";
    assert GetMelodyTrack(song.tracks) == Some(song.tracks[0]);
    assert TimeStepsPerBar(song) == 4.0;
    assert RoundHalfEven(0.75) == 1;
    assert StartingTime(song, song.tracks[0]) == 4.0;
  }

  /** A zero tempo makes the first conversion fail after the note was already
      shifted: at resolution 480 in 4/4 a note at step 2000 starts the first
      window at step 1920, and the note is left at step 80 when the
      `ZeroDivisionError` is raised. */
  lemma ZeroTempoShiftsNote()
    ensures var song := Song(480, [TimeSignature(4, 4)], [0.0], [Track("melody", [MNote(2000.0, 60, 100.0, 100)])]);
      ExtractMelodies(song, "song", "set", 1, (path: string) => true)
        == Extracted(Err(ZeroDivisionError), [], [MNote(80.0, 60, 100.0, 100)])
  {
    var song := Song(480, [TimeSignature(4, 4)], [0.0], [Track("melody", [MNote(2000.0, 60, 100.0, 100)])]);
    assert Lower("melody") == "melody";
    assert GetMelodyTrack(song.tracks) == Some(song.tracks[0]);
    assert TimeStepsPerBar(song) == 1920.0;
    assert RoundHalfEven(2000.0 / 1920.0) == 1;
    assert StartingTime(song, song.tracks[0]) == 1920.0;
  }
}
