/** The generational loop of `main` in melody_generator.py: elitism by shared
    fitness, breeding by tournament, crossover and mutation until the
    population is full again, and the per-generation score trace. */
module Evolution {
  import opened Outcomes
  import opened Seqs
  import opened Symbols
  import opened Variation
  import opened Selection

  /** The genetic-algorithm parameters of one run. */
  datatype Settings = Settings(populationSize: int, elitismCount: int, tournamentSize: int, mutationRate: real)

  /** The values `main` uses: 250 melodies, 25 elites, tournaments of the
      default size 5, a mutation rate of 0.07, over 100 generations. */
  const MainSettings: Settings := Settings(250, 25, 5, 0.07)
  const MainGenerations: nat := 100

  /** The random draws that produce one child: the two tournaments'
      participants and one mutation draw per position. */
  datatype ChildDraws = ChildDraws(first: seq<nat>, second: seq<nat>, mutation: seq<MutationDraw>)

  predicate ValidChildDraws(d: ChildDraws, s: Settings, popSize: nat, L: nat, paletteSize: nat) {
    && |d.first| == NonNegative(s.tournamentSize) && Below(d.first, popSize)
    && |d.second| == NonNegative(s.tournamentSize) && Below(d.second, popSize)
    && |d.mutation| == L && ValidMutationDraws(d.mutation, paletteSize)
  }

  predicate ValidGenerationDraws(draws: seq<ChildDraws>, s: Settings, popSize: nat, L: nat, paletteSize: nat) {
    && |draws| == Offspring(s, popSize)
    && forall c :: 0 <= c < |draws| ==> ValidChildDraws(draws[c], s, popSize, L, paletteSize)
  }

  /** The number of children the `while len(next_gen) < population_size`
      loop adds after the elites of a population of `n`. */
  function Offspring(s: Settings, n: nat): (o: nat)
    ensures TopCount(s.elitismCount, n) + o >= s.populationSize
    ensures o > 0 ==> TopCount(s.elitismCount, n) + o == s.populationSize
  {
    var elites := TopCount(s.elitismCount, n);
    if elites < s.populationSize then s.populationSize - elites else 0
  }

  /** A generation completes without an exception: tournaments have
      participants whenever a child is bred, and `best[0]` exists. */
  predicate StepSucceeds(s: Settings, n: nat) {
    && (Offspring(s, n) == 0 || s.tournamentSize >= 1)
    && TopCount(s.elitismCount, n) >= 1
  }

  /** One child: two tournament winners, crossed over and then mutated. */
  function Breed(pop: seq<Individual>, fit: Individual -> real, notes: seq<int>, L: nat, s: Settings, d: ChildDraws): (child: Individual)
    requires Uniform(pop, notes, L) && s.tournamentSize >= 1
    requires ValidChildDraws(d, s, |pop|, L, |notes| + 3)
    ensures |child| == L && AllInPalette(child, notes)
    ensures var p1 := Tournament(pop, fit, d.first).value;
      var p2 := Tournament(pop, fit, d.second).value;
      forall i :: 0 <= i < L ==>
        child[i] == (if d.mutation[i].coin < s.mutationRate then Palette(notes)[d.mutation[i].pick]
                     else if i < L / 2 then p1[i] else p2[i])
  {
    var p1 := Tournament(pop, fit, d.first).value;
    var p2 := Tournament(pop, fit, d.second).value;
    CrossoverKeepsPalette(p1, p2, notes);
    Mutate(Crossover(p1, p2), notes, s.mutationRate, d.mutation)
  }

  /** The children the `while` loop appends, one per entry of `draws`. */
  function Children(pop: seq<Individual>, fit: Individual -> real, notes: seq<int>, L: nat, s: Settings, draws: seq<ChildDraws>): (cs: seq<Individual>)
    requires Uniform(pop, notes, L) && s.tournamentSize >= 1
    requires forall c :: 0 <= c < |draws| ==> ValidChildDraws(draws[c], s, |pop|, L, |notes| + 3)
    ensures |cs| == |draws| && Uniform(cs, notes, L)
    ensures forall c :: 0 <= c < |draws| ==> cs[c] == Breed(pop, fit, notes, L, s, draws[c])
  {
    seq(|draws|, c requires 0 <= c < |draws| => Breed(pop, fit, notes, L, s, draws[c]))
  }

  /** The elites of a population of melodies of one length over one palette
      are such melodies too. */
  lemma ElitesUniform(pop: seq<Individual>, fit: Individual -> real, notes: seq<int>, L: nat, topN: int)
    requires Uniform(pop, notes, L)
    ensures Uniform(SelectBest(pop, fit, topN), notes, L)
  {
    var e := EliteIndices(SharedKeys(pop, fit), topN);
    var best := SelectBest(pop, fit, topN);
    forall k | 0 <= k < |best|
      ensures |best[k]| == L && AllInPalette(best[k], notes)
    {
      assert best[k] == pop[e[k]];
    }
  }

  lemma UniformAppend(a: seq<Individual>, b: seq<Individual>, notes: seq<int>, L: nat)
    requires Uniform(a, notes, L) && Uniform(b, notes, L)
    ensures Uniform(a + b, notes, L)
  {
    forall i | 0 <= i < |a + b|
      ensures |(a + b)[i]| == L && AllInPalette((a + b)[i], notes)
    {
      if i < |a| {
        assert (a + b)[i] == a[i];
      } else {
        assert (a + b)[i] == b[i - |a|];
      }
    }
  }

  /** The population, the score trace, and the elites `best` of the last generation. */
  datatype GaState = GaState(population: seq<Individual>, trace: seq<real>, elites: seq<Individual>)

  /** One pass of the generation loop: the elites by shared fitness, then
      bred children until the population is full, then the raw score of
      `best[0]` appended to the trace. */
  function Step(s: Settings, fit: Individual -> real, notes: seq<int>, L: nat, st: GaState, draws: seq<ChildDraws>): (r: Result<GaState>)
    requires Uniform(st.population, notes, L)
    requires ValidGenerationDraws(draws, s, |st.population|, L, |notes| + 3)
    ensures r.Ok? <==> StepSucceeds(s, |st.population|)
    ensures r.Err? ==> r.fault == (if |draws| > 0 && s.tournamentSize < 1 then ValueError else IndexError)
    ensures r.Ok? ==>
      var elites := SelectBest(st.population, fit, s.elitismCount);
      && r.value.elites == elites
      && |r.value.population| == (if |elites| < s.populationSize then s.populationSize else |elites|)
      && r.value.population[..|elites|] == elites
      && Uniform(r.value.population, notes, L)
      && Uniform(r.value.elites, notes, L)
      && r.value.trace == st.trace + [fit(elites[0])]
    ensures r.Ok? && |st.population| == s.populationSize ==> |r.value.population| == s.populationSize
  {
    var elites := SelectBest(st.population, fit, s.elitismCount);
    if |draws| > 0 && s.tournamentSize < 1 then Err(ValueError)
    else if |elites| == 0 then Err(IndexError)
    else
      var children := if |draws| == 0 then [] else Children(st.population, fit, notes, L, s, draws);
      ElitesUniform(st.population, fit, notes, L, s.elitismCount);
      UniformAppend(elites, children, notes, L);
      var next := elites + children;
      assert next[..|elites|] == elites;
      Ok(GaState(next, st.trace + [fit(elites[0])], elites))
  }

  /** After the elites, the next population holds the children bred from
      the generation's draws, in order: the `while` loop appends one child
      per pass and nothing else. */
  lemma StepBreedsChildren(s: Settings, fit: Individual -> real, notes: seq<int>, L: nat, st: GaState, draws: seq<ChildDraws>)
    requires Uniform(st.population, notes, L)
    requires ValidGenerationDraws(draws, s, |st.population|, L, |notes| + 3)
    requires StepSucceeds(s, |st.population|)
    ensures var elites := SelectBest(st.population, fit, s.elitismCount);
      var next := Step(s, fit, notes, L, st, draws).value.population;
      && (|draws| == 0 ==> next == elites)
      && (|draws| > 0 ==> next[|elites|..] == Children(st.population, fit, notes, L, s, draws))
  {
    var elites := SelectBest(st.population, fit, s.elitismCount);
    var children := if |draws| == 0 then [] else Children(st.population, fit, notes, L, s, draws);
    assert Step(s, fit, notes, L, st, draws).value.population == elites + children;
    assert (elites + children)[|elites|..] == children;
  }

  /** The score a generation records belongs to a member of greatest
      shared fitness, which need not be the member of greatest raw score. */
  lemma TraceRecordsTopShared(s: Settings, fit: Individual -> real, notes: seq<int>, L: nat, st: GaState, draws: seq<ChildDraws>)
    requires Uniform(st.population, notes, L)
    requires ValidGenerationDraws(draws, s, |st.population|, L, |notes| + 3)
    requires StepSucceeds(s, |st.population|)
    ensures var keys := SharedKeys(st.population, fit);
      var top := EliteIndices(keys, s.elitismCount)[0];
      && Step(s, fit, notes, L, st, draws).value.elites[0] == st.population[top]
      && forall i :: 0 <= i < |st.population| ==> keys[i] <= keys[top]
  {
    var pop := st.population;
    var keys := SharedKeys(pop, fit);
    var e := EliteIndices(keys, s.elitismCount);
    SelectBestOrder(keys, s.elitismCount);
    forall i | 0 <= i < |pop|
      ensures keys[i] <= keys[e[0]]
    {
      if i in e {
        var k :| 0 <= k < |e| && e[k] == i;
        if k > 0 {
          assert keys[e[0]] >= keys[e[k]];
        }
      }
    }
  }

  /** What `k` generations keep of a run's state: the population size, the
      melodies' length and palette, and every score recorded before. */
  predicate Continues(s: Settings, notes: seq<int>, L: nat, st: GaState, after: GaState, k: nat) {
    && |after.population| == s.populationSize
    && Uniform(after.population, notes, L)
    && |after.trace| == |st.trace| + k
    && st.trace <= after.trace
  }

  /** The `for gen in range(generations)` loop, one list of child draws per generation. */
  function Evolve(s: Settings, fit: Individual -> real, notes: seq<int>, L: nat, st: GaState, gens: seq<seq<ChildDraws>>): (r: Result<GaState>)
    requires Uniform(st.population, notes, L)
    requires |st.population| == s.populationSize
    requires forall g :: 0 <= g < |gens| ==> ValidGenerationDraws(gens[g], s, |st.population|, L, |notes| + 3)
    ensures r.Ok? <==> |gens| == 0 || StepSucceeds(s, |st.population|)
    ensures r.Ok? ==> Continues(s, notes, L, st, r.value, |gens|)
    ensures r.Ok? && |gens| > 0 ==> |r.value.elites| >= 1 && |r.value.elites[0]| == L
    decreases |gens|
  {
    if |gens| == 0 then Ok(st)
    else
      var next :- Step(s, fit, notes, L, st, gens[0]);
      Evolve(s, fit, notes, L, next, gens[1..])
  }
}
