/** The variation operators of the genetic algorithm: random initialisation,
    one-point crossover and per-position mutation. Random draws are inputs:
    an initial symbol is a palette position, and a mutation draw is the coin
    `random.random()` together with the palette position `random.choice`
    would pick. */
module Variation {
  import opened Seqs
  import opened Symbols

  predicate Below(picks: seq<nat>, bound: nat) {
    forall j :: 0 <= j < |picks| ==> picks[j] < bound
  }

  /** A population whose individuals all have length `L` and use only palette symbols. */
  predicate Uniform(pop: seq<Individual>, notes: seq<int>, L: nat) {
    forall i :: 0 <= i < |pop| ==> |pop[i]| == L && AllInPalette(pop[i], notes)
  }

  /** The melody `random.choices(available_notes, k)` returns for the drawn palette positions. */
  function Draw(notes: seq<int>, picks: seq<nat>): (ind: Individual)
    requires Below(picks, |notes| + 3)
    ensures |ind| == |picks| && AllInPalette(ind, notes)
    ensures forall j :: 0 <= j < |picks| ==> ind[j] == Palette(notes)[picks[j]]
  {
    PaletteIsInPalette(notes);
    seq(|picks|, j requires 0 <= j < |picks| => Palette(notes)[picks[j]])
  }

  /** `initialize_population(size, bars, notes)`: `size` melodies of
      `bars * 4` symbols, `draws[i][j]` being the palette position drawn for
      symbol j of melody i (`range` and `random.choices` yield nothing for a
      negative count). */
  function InitializePopulation(size: int, bars: int, notes: seq<int>, draws: seq<seq<nat>>): (pop: seq<Individual>)
    requires |draws| == NonNegative(size)
    requires forall i :: 0 <= i < |draws| ==> |draws[i]| == NonNegative(bars * 4) && Below(draws[i], |notes| + 3)
    ensures |pop| == NonNegative(size)
    ensures Uniform(pop, notes, NonNegative(bars * 4))
    ensures forall i :: 0 <= i < |pop| ==> pop[i] == Draw(notes, draws[i])
  {
    seq(|draws|, i requires 0 <= i < |draws| => Draw(notes, draws[i]))
  }

  /** `crossover(parent1, parent2)`: the first half of `parent1` (cut at
      `len(parent1) // 2`) followed by `parent2` from the cut on. */
  function Crossover(p1: Individual, p2: Individual): (child: Individual)
    ensures var cut := |p1| / 2; |child| == cut + (if cut <= |p2| then |p2| - cut else 0)
    ensures forall i :: 0 <= i < |p1| / 2 ==> child[i] == p1[i]
    ensures forall i :: |p1| / 2 <= i < |child| ==> child[i] == p2[i]
    ensures |p1| == |p2| ==> |child| == |p1|
  {
    var cut := |p1| / 2;
    p1[..cut] + (if cut <= |p2| then p2[cut..] else [])
  }

  lemma CrossoverSelf(x: Individual)
    ensures Crossover(x, x) == x
  {
  }

  lemma CrossoverKeepsPalette(p1: Individual, p2: Individual, notes: seq<int>)
    requires AllInPalette(p1, notes) && AllInPalette(p2, notes)
    ensures AllInPalette(Crossover(p1, p2), notes)
  {
  }

  /** One mutation draw: the coin `random.random()` in [0, 1) and the
      palette position used when the coin falls below the rate. */
  datatype MutationDraw = MutationDraw(coin: real, pick: nat)

  predicate ValidMutationDraws(draws: seq<MutationDraw>, paletteSize: nat) {
    forall i :: 0 <= i < |draws| ==> 0.0 <= draws[i].coin < 1.0 && draws[i].pick < paletteSize
  }

  /** `mutate(individual, notes, mutation_rate)`: every position whose coin
      falls below the rate is replaced by a palette symbol. */
  function Mutate(ind: Individual, notes: seq<int>, rate: real, draws: seq<MutationDraw>): (r: Individual)
    requires |draws| == |ind| && ValidMutationDraws(draws, |notes| + 3)
    ensures |r| == |ind|
    ensures forall i :: 0 <= i < |ind| && r[i] != ind[i] ==> draws[i].coin < rate
    ensures forall i :: 0 <= i < |ind| && draws[i].coin < rate ==> r[i] == Palette(notes)[draws[i].pick]
    ensures AllInPalette(ind, notes) ==> AllInPalette(r, notes)
  {
    PaletteIsInPalette(notes);
    seq(|ind|, i requires 0 <= i < |ind| =>
      if draws[i].coin < rate then Palette(notes)[draws[i].pick] else ind[i])
  }

  /** A zero rate never mutates: no coin falls below it. */
  lemma MutateZeroRate(ind: Individual, notes: seq<int>, draws: seq<MutationDraw>)
    requires |draws| == |ind| && ValidMutationDraws(draws, |notes| + 3)
    ensures Mutate(ind, notes, 0.0, draws) == ind
  {
  }

  /** A rate of one replaces every position: the result does not depend on
      the melody being mutated. */
  lemma MutateFullRate(a: Individual, b: Individual, notes: seq<int>, draws: seq<MutationDraw>)
    requires |a| == |b| == |draws| && ValidMutationDraws(draws, |notes| + 3)
    ensures Mutate(a, notes, 1.0, draws) == Mutate(b, notes, 1.0, draws)
  {
  }
}
