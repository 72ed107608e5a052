/** audio.py: `note_to_midi_note_number`, which reads a note name such as
    "C4" as a natural name followed by a one-digit octave. */
module Audio {
  import opened Outcomes
  import opened Seqs
  import opened Modes

  /** The natural names `note_to_midi_note_number` looks up. */
  const NoteNames: seq<string> := ["C", "D", "E", "F", "G", "A", "B"]

  /** The melody's note pool `scale_notes`. */
  const Pool: seq<string> := ["C4", "D4", "E4", "F4", "G4", "A4", "B4"]

  predicate IsDigit(c: char) {
    '0' <= c <= '9'
  }

  function DigitValue(c: char): (d: nat)
    requires IsDigit(c)
    ensures d <= 9
  {
    c as int - '0' as int
  }

  function DigitChar(d: nat): (c: char)
    requires d <= 9
    ensures IsDigit(c) && DigitValue(c) == d
  {
    ('0' as int + d) as char
  }

  /** `note_to_midi_note_number(note)`: the last character is the octave
      (`int` of a non-digit raises `ValueError`, and an empty string has no
      last character: `IndexError`), everything before it is the name, whose
      position in `NoteNames` (`list.index` raises `ValueError` when it is
      missing) is added to twelve times the octave. */
  function NoteNumber(note: string): (r: Result<int>)
    ensures |note| == 0 <==> r == Err(IndexError)
    ensures |note| > 0 ==>
      (r.Ok? <==> IsDigit(note[|note| - 1]) && note[..|note| - 1] in NoteNames)
    ensures |note| > 0 && r.Err? ==> r.fault == ValueError
    ensures r.Ok? ==> 0 <= r.value <= 6 + 12 * 9
  {
    if |note| == 0 then Err(IndexError)
    else if !IsDigit(note[|note| - 1]) then Err(ValueError)
    else if note[..|note| - 1] !in NoteNames then Err(ValueError)
    else Ok(FirstIndex(NoteNames, note[..|note| - 1]) + 12 * DigitValue(note[|note| - 1]))
  }

  /** The names are distinct, so a name's position is its only position. */
  lemma NamePositions()
    ensures forall i, j :: 0 <= i < j < |NoteNames| ==> NoteNames[i] != NoteNames[j]
  {
  }

  /** The numbers `NoteNumber` can return: a natural's position below seven
      in each octave of twelve. */
  predicate NaturalNumber(n: int) {
    0 <= n < 120 && n % 12 < 7
  }

  /** The note name `NoteNumber` reads as `n`. */
  function Spell(n: int): (note: string)
    requires NaturalNumber(n)
    ensures |note| == 2
  {
    NoteNames[n % 12] + [DigitChar(n / 12)]
  }

  /** `NoteNumber` is a bijection between names of the form natural-then-digit
      and the numbers `NaturalNumber` admits: spelling a number reads back as
      that number, and a name that reads as a number is that number's
      spelling. */
  lemma SpellRoundTrip(n: int)
    requires NaturalNumber(n)
    ensures NoteNumber(Spell(n)) == Ok(n)
  {
    var note := Spell(n);
    NamePositions();
    assert note[..|note| - 1] == NoteNames[n % 12];
    assert note[|note| - 1] == DigitChar(n / 12);
    assert FirstIndex(NoteNames, NoteNames[n % 12]) == n % 12;
  }

  lemma Octaves(k: int, d: int)
    requires 0 <= k < 12 && 0 <= d
    ensures (k + 12 * d) % 12 == k && (k + 12 * d) / 12 == d
  {
  }

  /** The number of the `k`-th natural in octave `d` is spelled that way. */
  lemma SpellOf(k: nat, d: nat)
    requires k < 7 && d <= 9
    ensures NaturalNumber(k + 12 * d)
    ensures Spell(k + 12 * d) == NoteNames[k] + [DigitChar(d)]
  {
    Octaves(k, d);
  }

  lemma DigitRoundTrip(c: char)
    requires IsDigit(c)
    ensures DigitChar(DigitValue(c)) == c
  {
  }

  lemma ReadRoundTrip(note: string)
    requires NoteNumber(note).Ok?
    ensures NaturalNumber(NoteNumber(note).value)
    ensures Spell(NoteNumber(note).value) == note
  {
    var name, last := note[..|note| - 1], note[|note| - 1];
    var k := FirstIndex(NoteNames, name);
    assert NoteNumber(note).value == k + 12 * DigitValue(last);
    SpellOf(k, DigitValue(last));
    DigitRoundTrip(last);
    assert note == name + [last];
  }

  /** One octave up is exactly twelve more. */
  lemma OctaveAddsTwelve(name: string, d: nat)
    requires name in NoteNames && d < 9
    ensures NoteNumber(name + [DigitChar(d + 1)]).Ok?
    ensures NoteNumber(name + [DigitChar(d + 1)]).value == NoteNumber(name + [DigitChar(d)]).value + 12
  {
    assert (name + [DigitChar(d + 1)])[..|name|] == name;
    assert (name + [DigitChar(d)])[..|name|] == name;
  }

  /** A sharp is not a listed name. */
  lemma SharpIsRejected()
    ensures NoteNumber("C#4") == Err(ValueError)
    ensures NoteNumber("") == Err(IndexError)
    ensures NoteNumber("C") == Err(ValueError)
  {
    assert "C#4"[..2] == "C#";
    assert "C#" !in NoteNames;
  }

  /** The pool reads as 48 to 54, one apart: C4 is 48 and D4 is 49. */
  lemma PoolNumbers()
    ensures forall i :: 0 <= i < |Pool| ==> NoteNumber(Pool[i]) == Ok(48 + i)
  {
    forall i | 0 <= i < |Pool|
      ensures NoteNumber(Pool[i]) == Ok(48 + i)
    {
      assert Pool[i] == Spell(48 + i);
      SpellRoundTrip(48 + i);
    }
  }

  // ---- MIDI numbers as the function's name and the repository's
  //      `NOTE_TO_MIDI` table (C = 60) use them.

  /** Semitones of each natural above C. */
  const NaturalSemitones: seq<int> := [0, 2, 4, 5, 7, 9, 11]

  /** The standard MIDI number of a natural-then-digit name: the natural's
      semitone offset plus twelve per octave, with C4 = 60. It fails on
      exactly the names `NoteNumber` fails on, with the same exception. */
  function MidiNumber(note: string): (r: Result<int>)
    ensures r.Ok? <==> NoteNumber(note).Ok?
    ensures r.Err? ==> r == NoteNumber(note)
    ensures r.Ok? ==> 12 <= r.value <= 131
  {
    if |note| == 0 then Err(IndexError)
    else if !IsDigit(note[|note| - 1]) then Err(ValueError)
    else if note[..|note| - 1] !in NoteNames then Err(ValueError)
    else Ok(NaturalSemitones[FirstIndex(NoteNames, note[..|note| - 1])] + 12 * (DigitValue(note[|note| - 1]) + 1))
  }

  /** The MIDI number of a natural in octave 4 is its semitone offset above 60. */
  lemma MidiOfOctaveFour(k: nat)
    requires k < 7
    ensures MidiNumber(NoteNames[k] + "4") == Ok(60 + NaturalSemitones[k])
  {
    var note := NoteNames[k] + "4";
    NamePositions();
    assert note[..|note| - 1] == NoteNames[k];
    assert FirstIndex(NoteNames, NoteNames[k]) == k;
  }

  /** One octave up is exactly twelve more in MIDI numbers as well. */
  lemma MidiOctaveAddsTwelve(name: string, d: nat)
    requires name in NoteNames && d < 9
    ensures MidiNumber(name + [DigitChar(d + 1)]).Ok?
    ensures MidiNumber(name + [DigitChar(d + 1)]).value == MidiNumber(name + [DigitChar(d)]).value + 12
  {
    assert (name + [DigitChar(d + 1)])[..|name|] == name;
    assert (name + [DigitChar(d)])[..|name|] == name;
  }

  /** With MIDI numbers the pool is the C major scale from middle C. */
  lemma PoolIsCMajor()
    ensures forall i :: 0 <= i < |Pool| ==> MidiNumber(Pool[i]) == Ok(GetNotes(60, "major").value[i])
  {
    CMajorScale();
    var scale := [60, 62, 64, 65, 67, 69, 71, 72];
    forall i | 0 <= i < |Pool|
      ensures MidiNumber(Pool[i]) == Ok(scale[i])
    {
      assert Pool[i] == NoteNames[i] + "4";
      MidiOfOctaveFour(i);
    }
  }
}
