/** The eight modes and the melody generator's scale builder `get_notes`.
    The step table is the same in melody_generator.py and chord_generator.py,
    so both models use this one definition. */
module Modes {
  import opened Outcomes
  import opened Seqs

  /** Semitone steps of each mode, keyed by the mode's name. */
  const ScaleSteps: map<string, seq<int>> := map[
    "major"      := [2, 2, 1, 2, 2, 2, 1],
    "minor"      := [2, 1, 2, 2, 1, 2, 2],
    "dorian"     := [2, 1, 2, 2, 2, 1, 2],
    "phrygian"   := [1, 2, 2, 2, 1, 2, 2],
    "lydian"     := [2, 2, 2, 1, 2, 2, 1],
    "mixolydian" := [2, 2, 1, 2, 2, 1, 2],
    "locrian"    := [1, 2, 2, 1, 2, 2, 2],
    "aeolian"    := [2, 1, 2, 2, 1, 2, 2]
  ]

  const ModeNames: set<string> :=
    {"major", "minor", "dorian", "phrygian", "lydian", "mixolydian", "locrian", "aeolian"}

  predicate StrictlyIncreasing(xs: seq<int>) {
    forall i, j :: 0 <= i < j < |xs| ==> xs[i] < xs[j]
  }

  /** Every mode is seven positive steps that together span one octave. */
  predicate OctaveSteps(steps: seq<int>) {
    && |steps| == 7
    && (forall k :: 0 <= k < |steps| ==> steps[k] > 0)
    && Sum(steps) == 12
  }

  lemma SumOfSeven(s: seq<int>)
    requires |s| == 7
    ensures Sum(s) == s[0] + s[1] + s[2] + s[3] + s[4] + s[5] + s[6]
  {
    assert Sum(s) == Sum(s[..6]) + s[6];
    assert s[..6][..5] == s[..5];
    assert Sum(s[..6]) == Sum(s[..5]) + s[5];
    assert s[..5][..4] == s[..4];
    assert Sum(s[..5]) == Sum(s[..4]) + s[4];
    assert s[..4][..3] == s[..3];
    assert Sum(s[..4]) == Sum(s[..3]) + s[3];
    assert s[..3][..2] == s[..2];
    assert Sum(s[..3]) == Sum(s[..2]) + s[2];
    assert s[..2][..1] == s[..1];
    assert Sum(s[..2]) == Sum(s[..1]) + s[1];
    assert s[..1][..0] == [];
  }

  lemma StepTableWellFormed()
    ensures ScaleSteps.Keys == ModeNames
    ensures forall m :: m in ScaleSteps ==> OctaveSteps(ScaleSteps[m])
  {
    forall m | m in ScaleSteps
      ensures OctaveSteps(ScaleSteps[m])
    {
      SumOfSeven(ScaleSteps[m]);
    }
  }

  /** `start` followed by its running sums with `steps`, as the loop of
      `get_notes` appends them. */
  function Cumulate(start: int, steps: seq<int>): (r: seq<int>)
    ensures |r| == |steps| + 1 && r[0] == start
    decreases |steps|
  {
    if |steps| == 0 then [start] else [start] + Cumulate(start + steps[0], steps[1..])
  }

  lemma {:induction false} SumFront(steps: seq<int>)
    requires |steps| > 0
    ensures Sum(steps) == steps[0] + Sum(steps[1..])
    decreases |steps|
  {
    if |steps| > 1 {
      var init := steps[..|steps| - 1];
      SumFront(init);
      assert init[1..] == steps[1..][..|steps[1..]| - 1];
    }
  }

  /** With positive steps the running sums rise strictly and end `Sum(steps)`
      above the start. */
  lemma {:induction false} CumulateRises(start: int, steps: seq<int>)
    requires forall k :: 0 <= k < |steps| ==> steps[k] > 0
    ensures StrictlyIncreasing(Cumulate(start, steps))
    ensures Cumulate(start, steps)[|steps|] == start + Sum(steps)
    ensures forall i :: 0 <= i < |steps| + 1 ==> start <= Cumulate(start, steps)[i] <= start + Sum(steps)
    decreases |steps|
  {
    if |steps| > 0 {
      var tail := Cumulate(start + steps[0], steps[1..]);
      CumulateRises(start + steps[0], steps[1..]);
      SumFront(steps);
      var r := Cumulate(start, steps);
      assert r == [start] + tail;
      forall i, j | 0 <= i < j < |r|
        ensures r[i] < r[j]
      {
        if i > 0 {
          assert r[i] == tail[i - 1] && r[j] == tail[j - 1];
        } else {
          assert r[j] == tail[j - 1];
        }
      }
    }
  }

  /** `get_notes(scale, mode)`: the root followed by the seven running sums of
      the mode's steps; an unknown mode raises `KeyError`. */
  function GetNotes(root: int, mode: string): (r: Result<seq<int>>)
    ensures r.Err? <==> mode !in ModeNames
    ensures r.Err? ==> r.fault == KeyError
    ensures r.Ok? ==> |r.value| == 8 && r.value[0] == root && r.value[7] == root + 12
    ensures r.Ok? ==> StrictlyIncreasing(r.value)
    ensures r.Ok? ==> forall i :: 0 <= i < 8 ==> root <= r.value[i] <= root + 12
  {
    StepTableWellFormed();
    if mode !in ScaleSteps then Err(KeyError)
    else
      CumulateRises(root, ScaleSteps[mode]);
      Ok(Cumulate(root, ScaleSteps[mode]))
  }

  lemma CMajorScale()
    ensures GetNotes(60, "major") == Ok([60, 62, 64, 65, 67, 69, 71, 72])
  {
    var steps := ScaleSteps["major"];
    assert steps == [2, 2, 1, 2, 2, 2, 1];
    assert Cumulate(72, steps[7..]) == [72];
    assert Cumulate(71, steps[6..]) == [71, 72];
    assert Cumulate(69, steps[5..]) == [69, 71, 72];
    assert Cumulate(67, steps[4..]) == [67, 69, 71, 72];
    assert Cumulate(65, steps[3..]) == [65, 67, 69, 71, 72];
    assert Cumulate(64, steps[2..]) == [64, 65, 67, 69, 71, 72];
    assert Cumulate(62, steps[1..]) == [62, 64, 65, 67, 69, 71, 72];
    assert Cumulate(60, steps) == [60, 62, 64, 65, 67, 69, 71, 72];
  }
}
