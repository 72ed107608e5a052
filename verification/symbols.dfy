/** Melody symbols: a scale note or the rest marker `'REST'`. */
module Symbols {
  import opened Seqs

  datatype Sym = Note(pitch: int) | Rest

  /** One candidate melody. */
  type Individual = seq<Sym>

  /** The palette `notes + ['REST', 'REST', 'REST']` that initialisation and
      mutation draw from: the rest marker is listed three times so that it is
      drawn more often. */
  function Palette(notes: seq<int>): (p: seq<Sym>)
    ensures |p| == |notes| + 3
    ensures forall i :: 0 <= i < |notes| ==> p[i] == Note(notes[i])
    ensures p[|notes|] == Rest && p[|notes| + 1] == Rest && p[|notes| + 2] == Rest
  {
    seq(|notes|, i requires 0 <= i < |notes| => Note(notes[i])) + [Rest, Rest, Rest]
  }

  /** A symbol that `get_note_index` accepts: the rest marker or a scale note. */
  predicate InPalette(s: Sym, notes: seq<int>) {
    s.Rest? || s.pitch in notes
  }

  predicate AllInPalette(ind: Individual, notes: seq<int>) {
    forall i :: 0 <= i < |ind| ==> InPalette(ind[i], notes)
  }

  /** The palette holds exactly the symbols `InPalette` accepts, and the
      rest marker three times: three of its `|notes| + 3` entries are rests. */
  lemma PaletteIsInPalette(notes: seq<int>)
    ensures forall k :: 0 <= k < |Palette(notes)| ==> InPalette(Palette(notes)[k], notes)
    ensures forall s :: InPalette(s, notes) ==> s in Palette(notes)
    ensures multiset(Palette(notes))[Rest] == 3
  {
    var p := Palette(notes);
    var scale := p[..|notes|];
    assert p == scale + [Rest, Rest, Rest];
    assert Rest !in scale;
    assert multiset(p) == multiset(scale) + multiset([Rest, Rest, Rest]);
    forall s | InPalette(s, notes)
      ensures s in p
    {
      if s.Note? {
        var k := FirstIndex(notes, s.pitch);
        assert p[k] == s;
      } else {
        assert p[|notes|] == s;
      }
    }
  }

  /** `get_note_index`: -1 for the rest marker, otherwise the position of the
      first occurrence of the pitch in the scale. */
  function NoteIndex(s: Sym, notes: seq<int>): (k: int)
    requires InPalette(s, notes)
    ensures -1 <= k < |notes|
    ensures k == -1 <==> s.Rest?
    ensures s.Note? ==> notes[k] == s.pitch && forall j :: 0 <= j < k ==> notes[j] != s.pitch
  {
    if s.Rest? then -1 else FirstIndex(notes, s.pitch)
  }

  /** An individual that `fitness` scores without raising: at least two
      symbols (one symbol divides by `1 // 2 == 0`, none fails `individual[0]`)
      and every symbol drawn from the palette. */
  predicate WellFormed(ind: Individual, notes: seq<int>) {
    |ind| >= 2 && AllInPalette(ind, notes)
  }
}
