/** The generation loop of `main` run on melodies: the raw score is
    `fitness(ind, notes)`, the shared keys are `shared_fitness`, and the
    parameters are the ones `main` fixes. */
module MelodyRun {
  import opened Outcomes
  import opened Symbols
  import opened Scoring
  import opened Diversity
  import opened Variation
  import opened Selection
  import opened Evolution

  /** `fitness(ind, notes)` as a score on every melody; a melody outside the
      palette or shorter than two symbols, which the loop never produces,
      scores zero. */
  function MelodyFitness(notes: seq<int>): Individual -> real {
    ind => if WellFormed(ind, notes) && |notes| >= 5 then Fitness(ind, notes) else 0.0
  }

  predicate AllWellFormed(pop: seq<Individual>, notes: seq<int>) {
    forall i :: 0 <= i < |pop| ==> WellFormed(pop[i], notes)
  }

  /** The keys `select_best_with_sharing` sorts by are the values of
      `shared_fitness(ind, population, notes)` with its default radius. */
  lemma SharedKeysAreSharedFitness(pop: seq<Individual>, notes: seq<int>)
    requires AllWellFormed(pop, notes) && |notes| >= 5
    ensures var keys := SharedKeys(pop, MelodyFitness(notes));
      forall i :: 0 <= i < |pop| ==> SharedFitness(pop[i], pop, notes, SigmaShare) == Ok(keys[i])
  {
    var keys := SharedKeys(pop, MelodyFitness(notes));
    forall i | 0 <= i < |pop|
      ensures SharedFitness(pop[i], pop, notes, SigmaShare) == Ok(keys[i])
    {
      SharingOfMember(pop[i], pop, notes, SigmaShare);
      assert MelodyFitness(notes)(pop[i]) == Fitness(pop[i], notes);
    }
  }

  /** `main`'s run: 100 generations of 250 melodies of `4 * bars` symbols,
      25 elites, tournaments of five, mutation rate 0.07, starting from a
      drawn population and an empty score list. It never fails and records
      one score per generation. */
  function MainRun(notes: seq<int>, bars: int, init: seq<seq<nat>>, gens: seq<seq<ChildDraws>>): (r: Result<GaState>)
    requires |notes| >= 5 && bars >= 1
    requires |init| == MainSettings.populationSize
    requires forall i :: 0 <= i < |init| ==> |init[i]| == bars * 4 && Below(init[i], |notes| + 3)
    requires |gens| == MainGenerations
    requires forall g :: 0 <= g < |gens| ==> ValidGenerationDraws(gens[g], MainSettings, MainSettings.populationSize, bars * 4, |notes| + 3)
    ensures r.Ok?
    ensures |r.value.population| == 250 && |r.value.trace| == 100
    ensures Uniform(r.value.population, notes, bars * 4)
  {
    var pop := InitializePopulation(MainSettings.populationSize, bars, notes, init);
    assert StepSucceeds(MainSettings, |pop|);
    Evolve(MainSettings, MelodyFitness(notes), notes, bars * 4, GaState(pop, [], []), gens)
  }
}
