/** Fitness sharing: the Hamming `distance` between melodies, the niche count
    and `shared_fitness` of melody_generator.py. */
module Diversity {
  import opened Outcomes
  import opened Symbols
  import opened Scoring

  /** `distance(ind1, ind2)`: positions where the melodies differ, over the
      pairs `zip` forms (the longer melody's tail is ignored). */
  function Distance(a: Individual, b: Individual): (d: nat)
    ensures d <= |a| && d <= |b|
    ensures a == b ==> d == 0
  {
    if |a| == 0 || |b| == 0 then 0
    else (if a[0] != b[0] then 1 else 0) + Distance(a[1..], b[1..])
  }

  lemma {:induction false} DistanceSymmetric(a: Individual, b: Individual)
    ensures Distance(a, b) == Distance(b, a)
  {
    if |a| > 0 && |b| > 0 {
      DistanceSymmetric(a[1..], b[1..]);
    }
  }

  /** On melodies of equal length distance zero means equal. */
  lemma {:induction false} DistanceZeroIffEqual(a: Individual, b: Individual)
    requires |a| == |b|
    ensures Distance(a, b) == 0 <==> a == b
  {
    if |a| > 0 {
      DistanceZeroIffEqual(a[1..], b[1..]);
      if a[0] == b[0] && a[1..] == b[1..] {
        assert a == [a[0]] + a[1..] && b == [b[0]] + b[1..];
      }
    }
  }

  /** The Hamming distance obeys the triangle inequality. */
  lemma {:induction false} DistanceTriangle(a: Individual, b: Individual, c: Individual)
    requires |a| == |b| == |c|
    ensures Distance(a, c) <= Distance(a, b) + Distance(b, c)
  {
    if |a| > 0 {
      DistanceTriangle(a[1..], b[1..], c[1..]);
    }
  }

  /** The number of members of `pop` (the individual itself included)
      closer than `sigma` to `ind`. */
  function NicheCount(ind: Individual, pop: seq<Individual>, sigma: int): (n: nat)
    ensures n <= |pop|
    ensures sigma >= 1 && ind in pop ==> n >= 1
    ensures sigma <= 0 ==> n == 0
  {
    if |pop| == 0 then 0
    else
      NicheCount(ind, pop[..|pop| - 1], sigma)
      + (if Distance(ind, pop[|pop| - 1]) < sigma then 1 else 0)
  }

  lemma ShareBounds(f: real, n: nat)
    requires f >= 0.0 && n >= 1
    ensures 0.0 <= f / (n as real) <= f
    ensures (f / (n as real)) * (n as real) == f
  {
    var q := f / (n as real);
    assert q * (n as real) == f;
    assert q * (n as real) >= q * 1.0;
  }

  /** Raw fitness divided by the niche count. */
  function SharedValue(ind: Individual, pop: seq<Individual>, notes: seq<int>, sigma: int): real
    requires WellFormed(ind, notes) && |notes| >= 5
    requires NicheCount(ind, pop, sigma) > 0
  {
    Fitness(ind, notes) / (NicheCount(ind, pop, sigma) as real)
  }

  /** `shared_fitness(individual, population, notes, sigma_share)`: there is
      no `max(niche_count, 1)` guard, so an empty niche divides by zero. */
  function SharedFitness(ind: Individual, pop: seq<Individual>, notes: seq<int>, sigma: int): (r: Result<real>)
    requires WellFormed(ind, notes) && |notes| >= 5
    ensures r.Err? <==> NicheCount(ind, pop, sigma) == 0
    ensures r.Err? ==> r.fault == ZeroDivision
    ensures r.Ok? ==> 0.0 <= r.value <= Fitness(ind, notes)
  {
    var n := NicheCount(ind, pop, sigma);
    if n == 0 then Err(ZeroDivision)
    else
      ShareBounds(Fitness(ind, notes), n);
      Ok(SharedValue(ind, pop, notes, sigma))
  }

  /** A member of the population, with a radius of at least one, is its own
      niche-mate: sharing never fails and never raises its fitness. */
  lemma SharingOfMember(ind: Individual, pop: seq<Individual>, notes: seq<int>, sigma: int)
    requires WellFormed(ind, notes) && |notes| >= 5
    requires ind in pop && sigma >= 1
    ensures NicheCount(ind, pop, sigma) >= 1
    ensures SharedFitness(ind, pop, notes, sigma).Ok?
    ensures SharedFitness(ind, pop, notes, sigma).value <= Fitness(ind, notes)
  {
  }

  /** With a radius of zero or less nothing is a niche-mate, and the
      division in `shared_fitness` fails. */
  lemma SharingWithoutRadius(ind: Individual, pop: seq<Individual>, notes: seq<int>, sigma: int)
    requires WellFormed(ind, notes) && |notes| >= 5 && sigma <= 0
    ensures NicheCount(ind, pop, sigma) == 0
    ensures SharedFitness(ind, pop, notes, sigma) == Err(ZeroDivision)
  {
  }
}
