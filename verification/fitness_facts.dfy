/** Properties of the melody scorer: what the REST sentinel -1 does to the
    interval and direction rules, where the climax is taken, and the exact
    integer forms of the scorer's floating-point tests. */
module FitnessFacts {
  import opened Seqs
  import opened Symbols
  import opened Modes
  import opened Scoring

  /** The `interval != 1` clause of the leap test never decides anything. */
  lemma LeapTestRedundant(ks: seq<int>, i: int)
    ensures IsLeap(ks, i) <==> 1 <= i < |ks| && Interval(ks, i) > 4
  {
  }

  /** In a scale without repeated pitches, the index of its k-th note is k. */
  lemma IndexOfDegree(notes: seq<int>, k: int)
    requires StrictlyIncreasing(notes) && 0 <= k < |notes|
    ensures InPalette(Note(notes[k]), notes) && NoteIndex(Note(notes[k]), notes) == k
  {
  }

  /** A REST next to the note of degree k (either order) is a stepwise pair
      exactly when k is the tonic, and a leap exactly when k >= 4: the
      sentinel -1 takes part in the interval arithmetic as a degree. */
  lemma RestSentinelIntervals(ind: Individual, notes: seq<int>, i: int, k: int)
    requires AllInPalette(ind, notes) && StrictlyIncreasing(notes)
    requires 1 <= i < |ind| && 0 <= k < |notes|
    requires (ind[i - 1] == Rest && ind[i] == Note(notes[k])) || (ind[i - 1] == Note(notes[k]) && ind[i] == Rest)
    ensures IsStep(Indices(ind, notes), i) <==> k == 0
    ensures IsLeap(Indices(ind, notes), i) <==> k >= 4
    ensures k == 0 ==> StepCount(Indices(ind, notes)) >= 1
    ensures k >= 4 ==> LeapCount(Indices(ind, notes)) >= 1
  {
    var ks := Indices(ind, notes);
    IndexOfDegree(notes, k);
    assert Interval(ks, i) == k + 1;
    if k == 0 {
      CountIfWitness(1, |ks|, StepRule(ks), i);
    }
    if k >= 4 {
      CountIfWitness(1, |ks|, LeapRule(ks), i);
    }
  }

  /** Moving off a REST onto any note counts as an upward movement, and
      moving from a note onto a REST as a downward one. */
  lemma RestTransitionsHaveDirection(ind: Individual, notes: seq<int>, i: int)
    requires AllInPalette(ind, notes) && 1 <= i < |ind|
    requires ind[i - 1].Rest? != ind[i].Rest?
    ensures ind[i - 1] == Rest ==> IsUp(Indices(ind, notes), i) && UpCount(Indices(ind, notes)) >= 1
    ensures ind[i] == Rest ==> IsDown(Indices(ind, notes), i) && DownCount(Indices(ind, notes)) >= 1
  {
    var ks := Indices(ind, notes);
    if ind[i - 1] == Rest {
      CountIfWitness(1, |ks|, UpRule(ks), i);
    } else {
      CountIfWitness(1, |ks|, DownRule(ks), i);
    }
  }

  /** On an eight-note scale every resolution pair (degree 7 to the tonic,
      index distance 6) is also penalised as a leap. */
  lemma ResolutionIsLeap(ind: Individual, notes: seq<int>, i: int)
    requires AllInPalette(ind, notes) && |notes| == 8 && StrictlyIncreasing(notes)
    requires IsResolution(ind, notes, i)
    ensures IsLeap(Indices(ind, notes), i)
  {
    IndexOfDegree(notes, 6);
    IndexOfDegree(notes, 0);
  }

  /** The climax is the first position holding the largest scale index:
      `individual.index` of the symbol `max` picked finds that same position. */
  lemma ClimaxIsFirstMaximum(ind: Individual, notes: seq<int>)
    requires |ind| >= 1 && AllInPalette(ind, notes)
    ensures var ks := Indices(ind, notes); var p := ClimaxPosition(ind, notes);
      && (forall j :: 0 <= j < |ind| ==> ks[j] <= ks[p])
      && (forall j :: 0 <= j < p ==> ks[j] < ks[p])
  {
    var ks := Indices(ind, notes);
    var rs := AsReals(ks);
    var q := ArgMax(rs);
    var p := ClimaxPosition(ind, notes);
    assert p == FirstIndex(ind, ind[q]);
    assert p == q;
    forall j | 0 <= j < |ind|
      ensures ks[j] <= ks[p]
    {
      assert rs[j] <= rs[q];
    }
    forall j | 0 <= j < p
      ensures ks[j] < ks[p]
    {
      assert rs[j] < rs[q];
    }
  }

  /** The climax test `length * 0.4 <= pos <= length * 0.6` in integers. */
  lemma ClimaxWindow(ind: Individual, notes: seq<int>)
    requires |ind| >= 1 && AllInPalette(ind, notes)
    ensures var p := ClimaxPosition(ind, notes);
      ClimaxScore(ind, notes) == (if 4 * |ind| <= 10 * p <= 6 * |ind| then 10 else 0)
  {
  }

  lemma DivisionOrder(x: real, y: real, h: real)
    requires h > 0.0
    ensures x / h < y / h <==> x < y
  {
    var a := x / h;
    var b := y / h;
    assert a * h == x && b * h == y;
    if a < b {
      assert (b - a) * h > 0.0;
    }
    if x < y {
      assert (b - a) * h > 0.0;
    }
  }

  /** The rest-density test `0.1 <= rests / length <= 0.25` in integers. */
  lemma RestShareWindow(ind: Individual)
    requires |ind| >= 1
    ensures var r := RestCount(ind); var L := |ind|;
      RestScore(ind) == (if L <= 10 * r && 4 * r <= L then 20 else -10)
  {
    var r := RestCount(ind) as real;
    var L := |ind| as real;
    DivisionOrder(r, 0.1 * L, L);
    DivisionOrder(0.25 * L, r, L);
    assert (0.1 * L) / L == 0.1;
    assert (0.25 * L) / L == 0.25;
  }

  /** The balance test compares the two half sums: both averages divide by
      the same `length // 2`. */
  lemma BalanceByHalfSums(ks: seq<int>)
    requires |ks| >= 2
    ensures var h := |ks| / 2;
      BalanceScore(ks) == (if Sum(ks[..h]) < Sum(ks[h..]) then -10 else 10)
  {
    var h := |ks| / 2;
    DivisionOrder(Sum(ks[..h]) as real, Sum(ks[h..]) as real, h as real);
  }

  /** The contour rule rewards a melody that moves both up and down between
      neighbours, and penalises one that never does both. */
  lemma DirectionNeedsBoth(ks: seq<int>)
    ensures DirectionScore(ks) == 20 <==> (exists i :: IsUp(ks, i)) && (exists j :: IsDown(ks, j))
    ensures DirectionScore(ks) == -20 <==> !((exists i :: IsUp(ks, i)) && (exists j :: IsDown(ks, j)))
  {
    CountIfPositive(1, |ks|, UpRule(ks));
    CountIfPositive(1, |ks|, DownRule(ks));
    if i :| IsUp(ks, i) {
      assert 1 <= i < |ks| && UpRule(ks)(i);
    }
    if j :| IsDown(ks, j) {
      assert 1 <= j < |ks| && DownRule(ks)(j);
    }
  }

  /** `range_used` counts the REST marker as one more distinct symbol. */
  lemma DistinctCountsRest(ind: Individual)
    ensures Distinct(ind) == |set s | s in ind && s.Note?| + (if Rest in ind then 1 else 0)
  {
    var all := set s | s in ind;
    var pitched := set s | s in ind && s.Note?;
    if Rest in ind {
      assert all == pitched + {Rest};
      assert Rest !in pitched;
    } else {
      assert all == pitched;
    }
  }

  /** A phrase is closed only by a REST that follows a note, so a melody with
      no REST after its first symbol earns nothing for phrasing: its one
      trailing phrase is never counted. */
  lemma TrailingPhraseNeverCounted(ind: Individual)
    requires forall j :: 1 <= j < |ind| ==> ind[j] != Rest
    ensures PhraseScan(ind).phrases == 0
    ensures PhraseScore(ind) == 0
  {
    CountIfIsCardinality(0, |ind|, CloseRule(ind));
    assert Where(0, |ind|, CloseRule(ind)) == {};
  }

  // ---- Phrasing as a count of closings.

  /** The last phrase closing before position `i`, or -1 when there is none:
      the REST after which the loop last reset its phrase counter. */
  function LastClose(ind: Individual, i: nat): (c: int)
    requires i <= |ind|
    ensures -1 <= c < i
    ensures c >= 0 ==> ClosesPhrase(ind, c)
    ensures forall j :: c < j < i ==> !ClosesPhrase(ind, j)
  {
    if i == 0 then -1
    else if ClosesPhrase(ind, i - 1) then i - 1
    else LastClose(ind, i - 1)
  }

  /** The number of non-REST symbols at positions `lo` to `hi - 1`. */
  function NotesBetween(ind: Individual, lo: nat, hi: nat): (n: nat)
    requires lo <= hi <= |ind|
    ensures n <= hi - lo
    decreases hi - lo
  {
    if lo == hi then 0 else NotesBetween(ind, lo, hi - 1) + (if ind[hi - 1] != Rest then 1 else 0)
  }

  /** A closing REST at `j` that completes a phrase: at least two notes lie
      between it and the previous closing. */
  predicate CountedClose(ind: Individual, j: int) {
    && ClosesPhrase(ind, j)
    && NotesBetween(ind, LastClose(ind, j) + 1, j) > 1
  }

  function CountedRule(ind: Individual): int -> bool {
    j => CountedClose(ind, j)
  }

  /** The rewards of the phrases completed at positions `lo` and after: each
      spans from the symbol after the previous closing to the note before
      its own closing. */
  function PhraseRewards(ind: Individual, maxLen: int, lo: nat): int
    decreases |ind| - lo
  {
    if lo >= |ind| then 0
    else
      var own :=
        if CountedClose(ind, lo) then
          assert !ClosesPhrase(ind, lo - 1);
          PhraseBonus(ind, maxLen, LastClose(ind, lo) + 1, lo - 1, NotesBetween(ind, LastClose(ind, lo) + 1, lo))
        else 0;
      own + PhraseRewards(ind, maxLen, lo + 1)
  }

  /** From any position whose loop state is the one the closings determine,
      the phrasing loop counts exactly the completed phrases ahead and adds
      exactly their rewards. */
  lemma {:induction false} ScanCountsPhrases(ind: Individual, maxLen: int, i: nat, st: Phrasing)
    requires i <= |ind|
    requires st.start == LastClose(ind, i) + 1
    requires st.current == NotesBetween(ind, st.start, i)
    ensures StartOk(ind, i, st.start)
    ensures Scan(ind, maxLen, i, st).phrases == st.phrases + CountIf(i, |ind|, CountedRule(ind))
    ensures Scan(ind, maxLen, i, st).bonus == st.bonus + PhraseRewards(ind, maxLen, i)
    decreases |ind| - i
  {
    if i < |ind| {
      var next := NextPhrasing(ind, maxLen, i, st);
      assert Scan(ind, maxLen, i, st) == Scan(ind, maxLen, i + 1, next);
      NextPhrasingKeepsState(ind, maxLen, i, st);
      ScanCountsPhrases(ind, maxLen, i + 1, next);
      CountIfStep(i, |ind|, CountedRule(ind));
      assert CountedRule(ind)(i) == CountedClose(ind, i);
    }
  }

  /** One step of the loop keeps the state the closings determine, and
      counts and rewards exactly the phrase completed at `i`, if any. */
  lemma NextPhrasingKeepsState(ind: Individual, maxLen: int, i: nat, st: Phrasing)
    requires i < |ind|
    requires st.start == LastClose(ind, i) + 1
    requires st.current == NotesBetween(ind, st.start, i)
    requires StartOk(ind, i, st.start)
    ensures var next := NextPhrasing(ind, maxLen, i, st);
      && next.start == LastClose(ind, i + 1) + 1
      && next.current == NotesBetween(ind, next.start, i + 1)
      && next.phrases == st.phrases + (if CountedClose(ind, i) then 1 else 0)
      && next.bonus + PhraseRewards(ind, maxLen, i + 1) == st.bonus + PhraseRewards(ind, maxLen, i)
  {
    var current := if ind[i] != Rest then st.current + 1 else st.current;
    assert current == NotesBetween(ind, st.start, i + 1);
    if i > 0 && ind[i] == Rest && ind[i - 1] != Rest {
      assert ClosesPhrase(ind, i) && LastClose(ind, i + 1) == i;
    } else {
      assert !ClosesPhrase(ind, i) && LastClose(ind, i + 1) == LastClose(ind, i);
    }
  }

  /** `total_phrases` is the number of closing RESTs with at least two notes
      since the previous closing, and the phrasing score is their rewards
      plus 20 for each. */
  lemma PhraseScoreCountsPhrases(ind: Individual)
    ensures PhraseScan(ind).phrases == CountIf(0, |ind|, CountedRule(ind))
    ensures PhraseScore(ind) == PhraseRewards(ind, |ind| / 4, 0) + 20 * CountIf(0, |ind|, CountedRule(ind))
  {
    ScanCountsPhrases(ind, |ind| / 4, 0, Phrasing(0, 0, 0, 0));
  }

  /** The raw score in integers: every counted rule as the size of the set
      of positions where it holds, the climax, rest and balance tests as the
      integer comparisons they amount to, phrasing as its completed phrases,
      and the contour rule as the existence of an upward and a downward step. */
  lemma RawScoreByRule(ind: Individual, notes: seq<int>)
    requires WellFormed(ind, notes) && |notes| >= 5
    ensures var ks := Indices(ind, notes); var L := |ind|; var h := L / 2;
      var p := ClimaxPosition(ind, notes); var r := RestCount(ind);
      RawScore(ind, notes) ==
        10 * |Where(1, L, ResolutionRule(ind, notes))|
        - 15 * |Where(1, L, LeapRule(ks))|
        + 10 * |Where(1, L, StepRule(ks))|
        + BoundaryScore(ind, notes)
        + 5 * Distinct(ind)
        + (if 4 * L <= 10 * p <= 6 * L then 10 else 0)
        + 10 * |Where(1, L - 1, AnticipationRule(ind, notes))|
        + (if L <= 10 * r && 4 * r <= L then 20 else -10)
        + (if Sum(ks[..h]) < Sum(ks[h..]) then -10 else 10)
        + PhraseRewards(ind, L / 4, 0) + 20 * CountIf(0, L, CountedRule(ind))
        + (if (exists i :: IsUp(ks, i)) && (exists j :: IsDown(ks, j)) then 20 else -20)
  {
    var ks := Indices(ind, notes);
    var L := |ind|;
    CountIfIsCardinality(1, L, ResolutionRule(ind, notes));
    CountIfIsCardinality(1, L, LeapRule(ks));
    CountIfIsCardinality(1, L, StepRule(ks));
    CountIfIsCardinality(1, L - 1, AnticipationRule(ind, notes));
    ClimaxWindow(ind, notes);
    RestShareWindow(ind);
    BalanceByHalfSums(ks);
    PhraseScoreCountsPhrases(ind);
    DirectionNeedsBoth(ks);
  }
}
