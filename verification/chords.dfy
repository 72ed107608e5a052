/** chord_generator.py: the note-name table, the chord tables, the scale
    builder `create_scale`, the progression builder
    `generate_chord_progression` and the random degree generator
    `generate_random_progression`. */
module Chords {
  import opened Outcomes
  import opened Seqs
  import opened Modes

  /** Root names of one octave and their MIDI numbers, C4 = 60. */
  const NoteToMidi: map<string, int> := map[
    "C" := 60, "C#" := 61, "D" := 62, "D#" := 63, "E" := 64,
    "F" := 65, "F#" := 66, "G" := 67, "G#" := 68, "A" := 69,
    "A#" := 70, "B" := 71
  ]

  /** The chord types the tables name. */
  datatype ChordType =
    | Major | Minor | MajorSeventh | MinorSeventh | DominantSeventh | Diminished
    | DiminishedSeventh | Augmented | SuspendedSecond | SuspendedFourth | AugmentedSeventh

  /** The `chord_structures` table: offsets of each chord type, in semitones
      above its root. */
  function Structure(t: ChordType): seq<int> {
    match t
    case Major => [0, 4, 7]
    case Minor => [0, 3, 7]
    case MajorSeventh => [0, 4, 7, 11]
    case MinorSeventh => [0, 3, 7, 10]
    case DominantSeventh => [0, 4, 7, 10]
    case Diminished => [0, 3, 6]
    case DiminishedSeventh => [0, 3, 6, 9]
    case Augmented => [0, 4, 8]
    case SuspendedSecond => [0, 2, 7]
    case SuspendedFourth => [0, 5, 7]
    case AugmentedSeventh => [0, 4, 8, 10]
  }

  /** The `mode_chord_types` table: the chord type of each of the seven
      scale degrees, per mode. */
  const ModeChordTypes: map<string, seq<ChordType>> := map[
    "major"      := [Major, Minor, Minor, Major, DominantSeventh, Minor, Diminished],
    "minor"      := [Minor, Diminished, Augmented, Minor, Minor, Major, MajorSeventh],
    "dorian"     := [Minor, Minor, Major, Major, Minor, Diminished, Major],
    "phrygian"   := [Minor, Major, Diminished, Minor, DominantSeventh, Major, Minor],
    "lydian"     := [Major, Major, Diminished, DominantSeventh, Minor, Minor, Augmented],
    "mixolydian" := [Major, Minor, Diminished, Major, Minor, Minor, MajorSeventh],
    "locrian"    := [Diminished, Major, Minor, Diminished, Minor, Major, MinorSeventh],
    "aeolian"    := [Minor, Diminished, Major, Minor, Minor, Major, DominantSeventh]
  ]

  /** A chord shape: three or four offsets rising from zero within an octave. */
  predicate ChordShape(offsets: seq<int>) {
    && (|offsets| == 3 || |offsets| == 4)
    && offsets[0] == 0
    && StrictlyIncreasing(offsets)
    && offsets[|offsets| - 1] < 12
  }

  /** Every listed root lies in the octave from MIDI 60 to 71. */
  lemma NoteTableIsOneOctave()
    ensures forall n :: n in NoteToMidi ==> 60 <= NoteToMidi[n] <= 71
  {
  }

  /** The chord tables agree with each other and with the step table: the
      modes with a row of chord types are the modes with steps, every row
      has seven entries, and every chord type has a shape of three or four
      rising offsets. */
  lemma ChordTablesConsistent()
    ensures ModeChordTypes.Keys == ModeNames == ScaleSteps.Keys
    ensures forall m :: m in ModeChordTypes ==> |ModeChordTypes[m]| == 7
    ensures forall t: ChordType :: ChordShape(Structure(t))
  {
    StepTableWellFormed();
    ChordRowsHaveSevenEntries();
    forall t: ChordType
      ensures ChordShape(Structure(t))
    {
      ChordShapeOf(t);
    }
  }

  lemma ChordRowsHaveSevenEntries()
    ensures forall m :: m in ModeChordTypes ==> |ModeChordTypes[m]| == 7
  {
  }

  lemma ChordShapeOf(t: ChordType)
    ensures ChordShape(Structure(t))
  {
  }

  /** A mode with steps has a row of seven chord types. */
  lemma RowOfMode(mode: string)
    requires mode in ModeNames
    ensures mode in ModeChordTypes && |ModeChordTypes[mode]| == 7
  {
  }

  lemma StructureShape(t: ChordType)
    ensures 3 <= |Structure(t)| <= 4 && Structure(t)[0] == 0
  {
  }

  /** The first note, then every further running sum reduced mod 128, as
      the loop of `create_scale` appends them. */
  function WrapTail(notes: seq<int>): (r: seq<int>)
    requires |notes| >= 1
    ensures |r| == |notes| && r[0] == notes[0]
    ensures forall i :: 1 <= i < |notes| ==> 0 <= r[i] < 128 && (r[i] - notes[i]) % 128 == 0
  {
    [notes[0]] + seq(|notes| - 1, i requires 0 <= i < |notes| - 1 => notes[i + 1] % 128)
  }

  /** `create_scale(root, mode)`: an unknown root raises `ValueError` before
      the mode is looked up, an unknown mode raises `KeyError`. */
  function CreateScale(root: string, mode: string): (r: Result<seq<int>>)
    ensures root !in NoteToMidi ==> r == Err(ValueError)
    ensures root in NoteToMidi && mode !in ModeNames ==> r == Err(KeyError)
    ensures r.Ok? <==> root in NoteToMidi && mode in ModeNames
    ensures r.Ok? ==> |r.value| == 8 && r.value[0] == NoteToMidi[root]
    ensures r.Ok? ==> forall i :: 1 <= i < 8 ==> 0 <= r.value[i] < 128
  {
    StepTableWellFormed();
    if root !in NoteToMidi then Err(ValueError)
    else if mode !in ScaleSteps then Err(KeyError)
    else Ok(WrapTail(Cumulate(NoteToMidi[root], ScaleSteps[mode])))
  }

  /** For every listed root the reduction mod 128 never changes a note:
      `create_scale` builds exactly the scale `get_notes` builds, so it
      rises strictly and ends an octave above the root. */
  lemma CreateScaleIsGetNotes(root: string, mode: string)
    requires root in NoteToMidi
    ensures CreateScale(root, mode) == GetNotes(NoteToMidi[root], mode)
    ensures mode in ModeNames ==>
      && StrictlyIncreasing(CreateScale(root, mode).value)
      && CreateScale(root, mode).value[7] == CreateScale(root, mode).value[0] + 12
  {
    NoteTableIsOneOctave();
    var g := GetNotes(NoteToMidi[root], mode);
    if mode in ModeNames {
      var c := Cumulate(NoteToMidi[root], ScaleSteps[mode]);
      assert g.value == c;
      var w := WrapTail(c);
      forall i | 1 <= i < 8
        ensures w[i] == c[i]
      {
        ModSmall(c[i], 128);
      }
      assert w == c;
    }
  }

  /** A degree the source accepts: `degree - 1` indexes the mode's seven-entry
      row, a negative index counting from the end. */
  predicate ValidDegree(degree: int) {
    -7 <= degree - 1 < 7
  }

  /** The chord type of a degree; degree 0 and below wrap to the end of the row. */
  function TypeOf(mode: string, degree: int): (t: ChordType)
    requires mode in ModeNames && ValidDegree(degree)
    ensures 1 <= degree ==> t == ModeChordTypes[mode][degree - 1]
    ensures degree <= 0 ==> t == ModeChordTypes[mode][degree + 6]
    ensures t == ModeChordTypes[mode][(degree - 1) % 7]
  {
    RowOfMode(mode);
    var di := degree - 1;
    assert di % 7 == if di < 0 then di + 7 else di by {
      if di < 0 {
        ModSmall(di + 7, 7);
      } else {
        ModSmall(di, 7);
      }
    }
    ModeChordTypes[mode][if di < 0 then di + 7 else di]
  }

  /** The scale position an offset reaches from a degree, wrapping past
      the eighth note as `% len(scale_notes)` does. */
  function Position(degree: int, offset: int): (p: nat)
    ensures p < 8
    ensures 0 <= degree - 1 + offset < 8 ==> p == degree - 1 + offset
  {
    var x := degree - 1 + offset;
    assert 0 <= x < 8 ==> x % 8 == x by {
      if 0 <= x < 8 {
        ModSmall(x, 8);
      }
    }
    x % 8
  }

  /** The chord of one degree: each offset of the chord type is added to the
      degree's scale position, wrapping mod 8. */
  function ChordOf(scale: seq<int>, mode: string, degree: int): (chord: seq<int>)
    requires |scale| == 8 && mode in ModeNames && ValidDegree(degree)
    ensures |chord| == |Structure(TypeOf(mode, degree))|
    ensures 3 <= |chord| <= 4
    ensures chord[0] == scale[Position(degree, 0)]
    ensures forall k :: 0 <= k < |chord| ==>
      chord[k] == scale[Position(degree, Structure(TypeOf(mode, degree))[k])]
  {
    StructureShape(TypeOf(mode, degree));
    var offsets := Structure(TypeOf(mode, degree));
    seq(|offsets|, k requires 0 <= k < |offsets| => scale[Position(degree, offsets[k])])
  }

  /** The chords of a list of degrees, in order. A degree outside the row
      raises `IndexError`; the list comprehension stops at the first such
      degree, and the outcome is the same whichever one it is. */
  function ChordsOf(scale: seq<int>, mode: string, degrees: seq<int>): (r: Result<seq<seq<int>>>)
    requires |scale| == 8 && mode in ModeNames
    ensures r.Ok? <==> forall i :: 0 <= i < |degrees| ==> ValidDegree(degrees[i])
    ensures r.Err? ==> r.fault == IndexError
    ensures r.Ok? ==> |r.value| == |degrees|
    ensures r.Ok? ==> forall i :: 0 <= i < |degrees| ==> r.value[i] == ChordOf(scale, mode, degrees[i])
  {
    if forall i :: 0 <= i < |degrees| ==> ValidDegree(degrees[i]) then
      Ok(seq(|degrees|, i requires 0 <= i < |degrees| => ChordOf(scale, mode, degrees[i])))
    else
      Err(IndexError)
  }

  /** `generate_chord_progression(root, mode, progression)`. */
  function GenerateChordProgression(root: string, mode: string, progression: seq<int>): (r: Result<seq<seq<int>>>)
    ensures root !in NoteToMidi ==> r == Err(ValueError)
    ensures root in NoteToMidi && mode !in ModeNames ==> r == Err(KeyError)
    ensures root in NoteToMidi && mode in ModeNames ==>
      (r.Ok? <==> forall i :: 0 <= i < |progression| ==> ValidDegree(progression[i]))
    ensures r.Ok? ==> |r.value| == |progression|
  {
    var scale :- CreateScale(root, mode);
    ChordsOf(scale, mode, progression)
  }

  /** Every note of a chord is a note of the scale, and a degree from 1 to
      7 starts its chord on its own scale note. */
  lemma ChordInScale(scale: seq<int>, mode: string, degree: int)
    requires |scale| == 8 && mode in ModeNames && ValidDegree(degree)
    ensures forall k :: 0 <= k < |ChordOf(scale, mode, degree)| ==> ChordOf(scale, mode, degree)[k] in scale
    ensures 1 <= degree ==> ChordOf(scale, mode, degree)[0] == scale[degree - 1]
  {
    var c := ChordOf(scale, mode, degree);
    forall k | 0 <= k < |c|
      ensures c[k] in scale
    {
      var j := Position(degree, Structure(TypeOf(mode, degree))[k]);
      assert c[k] == scale[j];
    }
  }

  /** Each chord of a progression has three or four notes, all from the
      scale, and starts on the scale note of its degree. */
  lemma ProgressionChords(root: string, mode: string, progression: seq<int>)
    requires GenerateChordProgression(root, mode, progression).Ok?
    ensures var scale := GetNotes(NoteToMidi[root], mode).value;
      var chords := GenerateChordProgression(root, mode, progression).value;
      forall i :: 0 <= i < |progression| ==>
        && 3 <= |chords[i]| <= 4
        && (forall k :: 0 <= k < |chords[i]| ==> chords[i][k] in scale)
        && (1 <= progression[i] ==> chords[i][0] == scale[progression[i] - 1])
  {
    CreateScaleIsGetNotes(root, mode);
    var scale := CreateScale(root, mode).value;
    var chords := ChordsOf(scale, mode, progression).value;
    assert GenerateChordProgression(root, mode, progression).value == chords;
    forall i | 0 <= i < |progression|
      ensures 3 <= |chords[i]| <= 4
      ensures forall k :: 0 <= k < |chords[i]| ==> chords[i][k] in scale
      ensures 1 <= progression[i] ==> chords[i][0] == scale[progression[i] - 1]
    {
      ChordInScale(scale, mode, progression[i]);
    }
  }

  /** One accepted degree gives one chord. */
  lemma ChordsOfOne(scale: seq<int>, mode: string, degree: int)
    requires |scale| == 8 && mode in ModeNames && ValidDegree(degree)
    ensures ChordsOf(scale, mode, [degree]) == Ok([ChordOf(scale, mode, degree)])
  {
    var r := ChordsOf(scale, mode, [degree]);
    assert ValidDegree([degree][0]);
    assert r.value == [ChordOf(scale, mode, degree)];
  }

  lemma MajorRow()
    ensures ModeChordTypes["major"] == [Major, Minor, Minor, Major, DominantSeventh, Minor, Diminished]
  {
  }

  /** The progression of one degree in C major is built on the C major scale. */
  lemma OneDegreeInCMajor(d: int)
    ensures GenerateChordProgression("C", "major", [d]) == ChordsOf([60, 62, 64, 65, 67, 69, 71, 72], "major", [d])
  {
    MiddleC();
    CMajorScale();
    CreateScaleIsGetNotes("C", "major");
    assert CreateScale("C", "major") == Ok([60, 62, 64, 65, 67, 69, 71, 72]);
  }

  lemma MiddleC()
    ensures "C" in NoteToMidi && NoteToMidi["C"] == 60
  {
  }

  lemma TonicChordPositions()
    ensures ChordOf([60, 62, 64, 65, 67, 69, 71, 72], "major", 1) == [60, 67, 72]
  {
    MajorRow();
    assert TypeOf("major", 1) == Major;
    assert Structure(Major) == [0, 4, 7];
  }

  lemma DegreeZeroPositions()
    ensures ChordOf([60, 62, 64, 65, 67, 69, 71, 72], "major", 0) == [72, 64, 69]
  {
    MajorRow();
    assert TypeOf("major", 0) == Diminished;
    assert Structure(Diminished) == [0, 3, 6];
  }

  lemma IntendedTonic()
    ensures IntendedChord([60, 62, 64, 65, 67, 69, 71, 72], "major", 1) == [60, 64, 67]
  {
    MajorRow();
    assert TypeOf("major", 1) == Major;
    assert Structure(Major) == [0, 4, 7];
  }

  /** C major, degree 1: offsets 0, 4 and 7 pick scale positions 0, 4 and 7. */
  lemma CMajorTonicChord()
    ensures GenerateChordProgression("C", "major", [1]) == Ok([[60, 67, 72]])
  {
    var scale := [60, 62, 64, 65, 67, 69, 71, 72];
    OneDegreeInCMajor(1);
    ChordsOfOne(scale, "major", 1);
    TonicChordPositions();
  }

  /** Degree 0 is not rejected: it takes the last entry of the row and
      starts on the octave. */
  lemma DegreeZeroWraps()
    ensures GenerateChordProgression("C", "major", [0]) == Ok([[72, 64, 69]])
  {
    var scale := [60, 62, 64, 65, 67, 69, 71, 72];
    OneDegreeInCMajor(0);
    ChordsOfOne(scale, "major", 0);
    DegreeZeroPositions();
  }

  /** Degree 8 runs past the seven-entry row, and so does degree -7 from
      its other end; degree -6 is the last one accepted below. */
  lemma DegreeRange()
    ensures GenerateChordProgression("C", "major", [8]) == Err(IndexError)
    ensures GenerateChordProgression("C", "major", [-7]) == Err(IndexError)
    ensures GenerateChordProgression("C", "major", [-6]).Ok?
  {
    OneDegreeInCMajor(8);
    OneDegreeInCMajor(-7);
    OneDegreeInCMajor(-6);
    assert !ValidDegree([8][0]) && !ValidDegree([-7][0]) && ValidDegree([-6][0]);
  }

  /** `generate_random_progression(mode, length)`, each `random.randint(1, 7)`
      given as the underlying `randbelow(7)` draw. */
  function RandomProgression(length: int, draws: seq<nat>): (degrees: seq<int>)
    requires |draws| == NonNegative(length)
    requires forall i :: 0 <= i < |draws| ==> draws[i] < 7
    ensures |degrees| == NonNegative(length)
    ensures forall i :: 0 <= i < |degrees| ==> 1 <= degrees[i] <= 7
  {
    seq(|draws|, i requires 0 <= i < |draws| => 1 + draws[i])
  }

  /** A random progression is always accepted by `generate_chord_progression`
      for a known root and mode, giving one chord per degree. */
  lemma RandomProgressionIsPlayable(root: string, mode: string, length: int, draws: seq<nat>)
    requires root in NoteToMidi && mode in ModeNames
    requires |draws| == NonNegative(length)
    requires forall i :: 0 <= i < |draws| ==> draws[i] < 7
    ensures var r := GenerateChordProgression(root, mode, RandomProgression(length, draws));
      r.Ok? && |r.value| == NonNegative(length)
  {
    var ps := RandomProgression(length, draws);
    assert forall i :: 0 <= i < |ps| ==> ValidDegree(ps[i]);
  }

  // ---- The chord offsets as the table's comments describe them.

  /** A chord built as its table comments describe it: each offset counted in
      semitones above the degree's scale note. */
  function IntendedChord(scale: seq<int>, mode: string, degree: int): (chord: seq<int>)
    requires |scale| == 8 && mode in ModeNames && 1 <= degree <= 7
    ensures |chord| == |Structure(TypeOf(mode, degree))| && 3 <= |chord| <= 4
    ensures chord[0] == scale[degree - 1]
    ensures forall k :: 0 <= k < |chord| ==> chord[k] - chord[0] == Structure(TypeOf(mode, degree))[k]
  {
    StructureShape(TypeOf(mode, degree));
    var offsets := Structure(TypeOf(mode, degree));
    seq(|offsets|, k requires 0 <= k < |offsets| => scale[degree - 1] + offsets[k])
  }

  /** The progression with chords built by semitone offsets. */
  function IntendedProgression(root: string, mode: string, progression: seq<int>): (r: Result<seq<seq<int>>>)
    requires forall i :: 0 <= i < |progression| ==> 1 <= progression[i] <= 7
    ensures r.Ok? <==> root in NoteToMidi && mode in ModeNames
    ensures r.Ok? ==> |r.value| == |progression|
    ensures r.Ok? ==> forall i :: 0 <= i < |progression| ==>
      && |r.value[i]| == |Structure(TypeOf(mode, progression[i]))|
      && r.value[i][0] == GetNotes(NoteToMidi[root], mode).value[progression[i] - 1]
      && forall k :: 0 <= k < |r.value[i]| ==>
           r.value[i][k] - r.value[i][0] == Structure(TypeOf(mode, progression[i]))[k]
  {
    var scale :- CreateScale(root, mode);
    CreateScaleIsGetNotes(root, mode);
    Ok(seq(|progression|, i requires 0 <= i < |progression| => IntendedChord(scale, mode, progression[i])))
  }

  /** The intended tonic chord of C major is the C-E-G triad. */
  lemma IntendedCMajorTonic()
    ensures IntendedProgression("C", "major", [1]) == Ok([[60, 64, 67]])
  {
    var scale := [60, 62, 64, 65, 67, 69, 71, 72];
    MiddleC();
    CMajorScale();
    CreateScaleIsGetNotes("C", "major");
    assert CreateScale("C", "major") == Ok(scale);
    IntendedTonic();
    var r := IntendedProgression("C", "major", [1]);
    assert r.value[0] == IntendedChord(scale, "major", [1][0]);
    assert r.value == [[60, 64, 67]];
  }

  /** The as-written tonic chord of C major is C-G-C (a fifth and an octave),
      not the C-E-G triad its offsets 0, 4, 7 describe. */
  lemma OffsetsUsedAsScalePositions()
    ensures GenerateChordProgression("C", "major", [1]) == Ok([[60, 67, 72]])
    ensures IntendedProgression("C", "major", [1]) == Ok([[60, 64, 67]])
  {
    CMajorTonicChord();
    IntendedCMajorTonic();
  }
}
