/** The melody scorer `fitness` of melody_generator.py: a sum of integer
    sub-rules over one individual, clamped at zero and divided by the closed
    form `max_score`. Python's floating-point divisions and comparisons are
    modelled with exact reals. */
module Scoring {
  import opened Seqs
  import opened Outcomes
  import opened Symbols

  /** Scale degree of every symbol, the rest marker mapped to -1. */
  function Indices(ind: Individual, notes: seq<int>): (ks: seq<int>)
    requires AllInPalette(ind, notes)
    ensures |ks| == |ind|
    ensures forall i :: 0 <= i < |ind| ==> ks[i] == NoteIndex(ind[i], notes)
    ensures forall i :: 0 <= i < |ind| ==> (ks[i] == -1 <==> ind[i] == Rest)
    ensures forall i :: 0 <= i < |ind| && ind[i] != Rest ==> 0 <= ks[i] < |notes| && ind[i] == Note(notes[ks[i]])
  {
    seq(|ind|, i requires 0 <= i < |ind| => NoteIndex(ind[i], notes))
  }

  function Tonic(notes: seq<int>): Sym
    requires |notes| >= 5
  {
    Note(notes[0])
  }

  /** `notes[-2]`, the seventh degree of an eight-note scale. */
  function LeadingTone(notes: seq<int>): Sym
    requires |notes| >= 5
  {
    Note(notes[|notes| - 2])
  }

  // ---- Per-position rules; each loop of `fitness` counts the positions of one rule.

  function Interval(ks: seq<int>, i: int): nat
    requires 1 <= i < |ks|
  {
    Abs(ks[i] - ks[i - 1])
  }

  /** Resolution: the leading tone followed by the tonic. */
  predicate IsResolution(ind: Individual, notes: seq<int>, i: int)
    requires |notes| >= 5
  {
    1 <= i < |ind| && ind[i - 1] == LeadingTone(notes) && ind[i] == Tonic(notes)
  }

  /** Leap, with the test exactly as written: `interval > 4 and interval != 1`. */
  predicate IsLeap(ks: seq<int>, i: int) {
    1 <= i < |ks| && Interval(ks, i) > 4 && Interval(ks, i) != 1
  }

  predicate IsStep(ks: seq<int>, i: int) {
    1 <= i < |ks| && Interval(ks, i) == 1
  }

  /** Anticipation: fifth, leading tone, tonic at positions i - 1, i, i + 1. */
  predicate IsAnticipation(ind: Individual, notes: seq<int>, i: int)
    requires |notes| >= 5
  {
    && 1 <= i < |ind| - 1
    && ind[i - 1] == Note(notes[4]) && ind[i] == LeadingTone(notes) && ind[i + 1] == Tonic(notes)
  }

  predicate IsUp(ks: seq<int>, i: int) {
    1 <= i < |ks| && ks[i] > ks[i - 1]
  }

  predicate IsDown(ks: seq<int>, i: int) {
    1 <= i < |ks| && ks[i] < ks[i - 1]
  }

  function ResolutionRule(ind: Individual, notes: seq<int>): int -> bool
    requires |notes| >= 5
  {
    i => IsResolution(ind, notes, i)
  }

  function LeapRule(ks: seq<int>): int -> bool {
    i => IsLeap(ks, i)
  }

  function StepRule(ks: seq<int>): int -> bool {
    i => IsStep(ks, i)
  }

  function AnticipationRule(ind: Individual, notes: seq<int>): int -> bool
    requires |notes| >= 5
  {
    i => IsAnticipation(ind, notes, i)
  }

  function UpRule(ks: seq<int>): int -> bool {
    i => IsUp(ks, i)
  }

  function DownRule(ks: seq<int>): int -> bool {
    i => IsDown(ks, i)
  }

  function StepCount(ks: seq<int>): nat {
    CountIf(1, |ks|, StepRule(ks))
  }

  function LeapCount(ks: seq<int>): nat {
    CountIf(1, |ks|, LeapRule(ks))
  }

  function UpCount(ks: seq<int>): nat {
    CountIf(1, |ks|, UpRule(ks))
  }

  function DownCount(ks: seq<int>): nat {
    CountIf(1, |ks|, DownRule(ks))
  }

  // ---- Whole-melody rules.

  /** Twenty points for starting on the tonic and twenty for ending on it. */
  function BoundaryScore(ind: Individual, notes: seq<int>): (b: int)
    requires |ind| >= 1 && |notes| >= 5
    ensures b == 40 <==> ind[0] == Tonic(notes) && ind[|ind| - 1] == Tonic(notes)
    ensures b == 0 <==> ind[0] != Tonic(notes) && ind[|ind| - 1] != Tonic(notes)
    ensures b == 0 || b == 20 || b == 40
  {
    (if ind[0] == Tonic(notes) then 20 else 0) + (if ind[|ind| - 1] == Tonic(notes) then 20 else 0)
  }

  /** `len(set(individual))`: the rest marker counts as one more symbol. */
  function Distinct(ind: Individual): nat {
    |set s | s in ind|
  }

  function AsReals(ks: seq<int>): (rs: seq<real>)
    ensures |rs| == |ks| && forall i :: 0 <= i < |ks| ==> rs[i] == ks[i] as real
  {
    seq(|ks|, i requires 0 <= i < |ks| => ks[i] as real)
  }

  /** `individual.index(max(individual, key=get_note_index))`: the first
      position holding the symbol that `max` returns. */
  function ClimaxPosition(ind: Individual, notes: seq<int>): (p: nat)
    requires |ind| >= 1 && AllInPalette(ind, notes)
    ensures p < |ind|
  {
    var top := ind[ArgMax(AsReals(Indices(ind, notes)))];
    FirstIndex(ind, top)
  }

  function ClimaxScore(ind: Individual, notes: seq<int>): int
    requires |ind| >= 1 && AllInPalette(ind, notes)
  {
    var pos := ClimaxPosition(ind, notes) as real;
    if (|ind| as real) * 0.4 <= pos <= (|ind| as real) * 0.6 then 10 else 0
  }

  function RestCount(ind: Individual): nat {
    multiset(ind)[Rest]
  }

  function RestScore(ind: Individual): int
    requires |ind| >= 1
  {
    var share := (RestCount(ind) as real) / (|ind| as real);
    if 0.1 <= share <= 0.25 then 20 else -10
  }

  /** Both half sums divided by `length // 2`, as written (the second half of
      an odd-length melody has one more element than the divisor). */
  function BalanceScore(ks: seq<int>): int
    requires |ks| >= 2
  {
    var h := |ks| / 2;
    var firstAverage := (Sum(ks[..h]) as real) / (h as real);
    var secondAverage := (Sum(ks[h..]) as real) / (h as real);
    if firstAverage < secondAverage then -10 else 10
  }

  function DirectionScore(ks: seq<int>): int {
    if UpCount(ks) > 0 && DownCount(ks) > 0 then 20 else -20
  }

  // ---- Musical phrasing: the scanning loop, one step per position.

  /** The loop variables `phrase_start`, `current_phrase_length`,
      `total_phrases`, and the score the loop adds per completed phrase. */
  datatype Phrasing = Phrasing(start: nat, current: nat, phrases: nat, bonus: int)

  /** A REST at `j` right after a non-REST: the only place a phrase is closed. */
  predicate ClosesPhrase(ind: Individual, j: int) {
    1 <= j < |ind| && ind[j] == Rest && ind[j - 1] != Rest
  }

  function CloseRule(ind: Individual): int -> bool {
    j => ClosesPhrase(ind, j)
  }

  /** The number of phrase closings at positions `i` and after. */
  function Closings(ind: Individual, i: int): nat {
    CountIf(i, |ind|, CloseRule(ind))
  }

  /** `phrase_start` is 0 or follows a REST that closed the previous phrase;
      this keeps `individual[phrase_start]` inside the melody. */
  predicate StartOk(ind: Individual, i: nat, start: nat) {
    start == 0 || (1 <= start <= i && start <= |ind| && ind[start - 1] == Rest)
  }

  /** Rewards for one completed phrase of `current` notes spanning `start..end`. */
  function PhraseBonus(ind: Individual, maxLen: int, start: nat, end: nat, current: nat): (b: int)
    requires start <= end < |ind|
    ensures -5 <= b <= 10
  {
    (if ind[start] == ind[end] then 5 else 10)
    + (if current > maxLen then -10 else if current < maxLen / 2 then -10 else 0)
  }

  /** One pass of the phrasing loop at position `i`: count the note, and at
      a closing REST count the phrase if it has more than one note, add its
      rewards, and restart after the REST. */
  function NextPhrasing(ind: Individual, maxLen: int, i: nat, st: Phrasing): (next: Phrasing)
    requires i < |ind| && StartOk(ind, i, st.start)
    ensures StartOk(ind, i + 1, next.start)
    ensures st.phrases <= next.phrases <= st.phrases + (if ClosesPhrase(ind, i) then 1 else 0)
    ensures -5 * (next.phrases - st.phrases) <= next.bonus - st.bonus <= 10 * (next.phrases - st.phrases)
  {
    var current := if ind[i] != Rest then st.current + 1 else st.current;
    if i > 0 && ind[i] == Rest && ind[i - 1] != Rest then
      var closed :=
        if current > 1 then
          Phrasing(st.start, current, st.phrases + 1, st.bonus + PhraseBonus(ind, maxLen, st.start, i - 1, current))
        else st;
      Phrasing(i + 1, 0, closed.phrases, closed.bonus)
    else
      st.(current := current)
  }

  /** The phrasing loop from position `i` on. */
  function Scan(ind: Individual, maxLen: int, i: nat, st: Phrasing): (r: Phrasing)
    requires i <= |ind| && StartOk(ind, i, st.start)
    ensures st.phrases <= r.phrases <= st.phrases + Closings(ind, i)
    ensures -5 * (r.phrases - st.phrases) <= r.bonus - st.bonus <= 10 * (r.phrases - st.phrases)
    decreases |ind| - i
  {
    if i == |ind| then st
    else Scan(ind, maxLen, i + 1, NextPhrasing(ind, maxLen, i, st))
  }

  function PhraseScan(ind: Individual): Phrasing {
    Scan(ind, |ind| / 4, 0, Phrasing(0, 0, 0, 0))
  }

  /** The phrasing contribution: per-phrase rewards plus 20 per completed phrase. */
  function PhraseScore(ind: Individual): int {
    var r := PhraseScan(ind);
    r.bonus + 20 * r.phrases
  }

  // ---- The score.

  function RawScore(ind: Individual, notes: seq<int>): int
    requires WellFormed(ind, notes) && |notes| >= 5
  {
    var ks := Indices(ind, notes);
    var L := |ind|;
    10 * CountIf(1, L, ResolutionRule(ind, notes))
    - 15 * LeapCount(ks)
    + 10 * StepCount(ks)
    + BoundaryScore(ind, notes)
    + 5 * Distinct(ind)
    + ClimaxScore(ind, notes)
    + 10 * CountIf(1, L - 1, AnticipationRule(ind, notes))
    + RestScore(ind)
    + BalanceScore(ks)
    + PhraseScore(ind)
    + DirectionScore(ks)
  }

  lemma DistinctPositive(ind: Individual)
    requires |ind| >= 1
    ensures Distinct(ind) >= 1
  {
    var symbols := set s | s in ind;
    assert ind[0] in symbols;
    assert symbols != {};
  }

  lemma ClampedRatio(x: int, m: int)
    requires m > 0
    ensures 0.0 <= (if x > 0 then x else 0) as real / (m as real)
    ensures (if x > 0 then x else 0) as real / (m as real) > 0.0 <==> x > 0
  {
    var c := (if x > 0 then x else 0) as real;
    var q := c / (m as real);
    assert q * (m as real) == c;
  }

  /** `max_score`, computed term by term as written. */
  function MaxScore(ind: Individual): (m: int)
    requires |ind| >= 1
    ensures m == 30 * |ind| + 45 + 5 * Distinct(ind)
    ensures m >= 30 * |ind| + 50
  {
    var L := |ind|;
    DistinctPositive(ind);
    ((L - 1) * 10 + 15 + L * 10 + 20 + (L - 1) * 10) + Distinct(ind) * 5 + 10 + 10 + 10
  }

  /** `fitness(individual, notes)`: the raw score clamped at zero, over `max_score`. */
  function Fitness(ind: Individual, notes: seq<int>): (r: real)
    requires WellFormed(ind, notes) && |notes| >= 5
    ensures 0.0 <= r
    ensures r > 0.0 <==> RawScore(ind, notes) > 0
  {
    var raw := RawScore(ind, notes);
    ClampedRatio(raw, MaxScore(ind));
    (if raw > 0 then raw else 0) as real / (MaxScore(ind) as real)
  }

  /** `fitness` on any individual: the exception it raises, or its score. An
      empty melody fails at `individual[0]`; a symbol outside the palette
      fails in `notes.index`; a single symbol divides by `1 // 2 == 0`. */
  function FitnessOutcome(ind: Individual, notes: seq<int>): (r: Result<real>)
    requires |notes| >= 5
    ensures r.Ok? <==> WellFormed(ind, notes)
    ensures r.Ok? ==> r.value == Fitness(ind, notes)
    ensures |ind| == 0 ==> r == Err(IndexError)
    ensures |ind| >= 1 && !AllInPalette(ind, notes) ==> r == Err(ValueError)
    ensures |ind| == 1 && AllInPalette(ind, notes) ==> r == Err(ZeroDivision)
  {
    if |ind| == 0 then Err(IndexError)
    else if !AllInPalette(ind, notes) then Err(ValueError)
    else if |ind| == 1 then Err(ZeroDivision)
    else Ok(Fitness(ind, notes))
  }
}
