/** Selection: `select_best_with_sharing` (elitism by shared fitness, a
    stable descending sort cut to `top_n`) and `tournament_selection` (the
    first fittest of the drawn participants). */
module Selection {
  import opened Seqs
  import opened Outcomes
  import opened Symbols
  import opened Diversity
  import opened Variation

  /** The niche radius `select_best_with_sharing` uses: the default
      `sigma_share=5` of `shared_fitness`. */
  const SigmaShare: int := 5

  // ---- A stable descending ranking of positions by key.

  /** Position `i` comes before position `j` in a stable descending sort:
      a larger key, or an equal key and an earlier position. */
  predicate Precedes(keys: seq<real>, i: int, j: int) {
    0 <= i < |keys| && 0 <= j < |keys| && (keys[i] > keys[j] || (keys[i] == keys[j] && i < j))
  }

  predicate Ranked(keys: seq<real>, r: seq<nat>) {
    forall a, b :: 0 <= a < b < |r| ==> Precedes(keys, r[a], r[b])
  }

  /** Inserts position `x` behind every position whose key is at least its own. */
  function Insert(keys: seq<real>, x: nat, r: seq<nat>): (s: seq<nat>)
    requires x < |keys|
    requires forall k :: 0 <= k < |r| ==> r[k] < |keys|
    ensures |s| == |r| + 1
    ensures forall y :: y in s <==> y == x || y in r
    decreases |r|
  {
    if |r| == 0 then [x]
    else if keys[r[0]] < keys[x] then [x] + r
    else
      assert r == [r[0]] + r[1..];
      [r[0]] + Insert(keys, x, r[1..])
  }

  /** Inserting a position later than every ranked one keeps the ranking
      stable and descending. */
  lemma {:induction false} InsertRanked(keys: seq<real>, x: nat, r: seq<nat>)
    requires x < |keys| && Ranked(keys, r)
    requires forall k :: 0 <= k < |r| ==> r[k] < x
    ensures Ranked(keys, Insert(keys, x, r))
    decreases |r|
  {
    if |r| > 0 {
      var s := Insert(keys, x, r);
      if keys[r[0]] < keys[x] {
        forall a, b | 0 <= a < b < |s|
          ensures Precedes(keys, s[a], s[b])
        {
          if a == 0 {
            if b > 1 {
              assert Precedes(keys, r[0], r[b - 1]);
            }
          } else {
            assert s[a] == r[a - 1] && s[b] == r[b - 1];
          }
        }
      } else {
        var rest := r[1..];
        assert Ranked(keys, rest) by {
          forall a, b | 0 <= a < b < |rest|
            ensures Precedes(keys, rest[a], rest[b])
          {
            assert rest[a] == r[a + 1] && rest[b] == r[b + 1];
          }
        }
        InsertRanked(keys, x, rest);
        var t := Insert(keys, x, rest);
        assert s == [r[0]] + t;
        forall b | 0 <= b < |t|
          ensures Precedes(keys, r[0], t[b])
        {
          if t[b] != x {
            assert t[b] in t;
            var c :| 0 <= c < |rest| && rest[c] == t[b];
            assert Precedes(keys, r[0], r[c + 1]);
          }
        }
        forall a, b | 0 <= a < b < |s|
          ensures Precedes(keys, s[a], s[b])
        {
          if a == 0 {
            assert s[b] == t[b - 1];
          } else {
            assert s[a] == t[a - 1] && s[b] == t[b - 1];
          }
        }
      }
    }
  }

  /** The positions `0 .. n - 1` in stable descending key order, built by
      inserting each position in turn. Every position occurs, and the strict
      order makes them distinct: a permutation. */
  function Rank(keys: seq<real>, n: nat): (r: seq<nat>)
    requires n <= |keys|
    ensures |r| == n
    ensures forall j :: 0 <= j < n ==> j in r
    ensures forall k :: 0 <= k < n ==> r[k] < n
    ensures Ranked(keys, r)
  {
    if n == 0 then []
    else
      var prev := Rank(keys, n - 1);
      InsertRanked(keys, n - 1, prev);
      var r := Insert(keys, n - 1, prev);
      assert forall j :: 0 <= j < n - 1 ==> j in prev ==> j in r;
      assert n - 1 in r;
      forall k | 0 <= k < n
        ensures r[k] < n
      {
        assert r[k] in r;
        if r[k] != n - 1 {
          var m :| 0 <= m < |prev| && prev[m] == r[k];
        }
      }
      r
  }

  /** How many entries `scored[:top_n]` keeps of `n`, a negative `top_n`
      counting from the end as Python slicing does. */
  function TopCount(topN: int, n: nat): (c: nat)
    ensures c <= n
    ensures topN >= 0 ==> c == if topN < n then topN else n
    ensures topN < 0 ==> c == if n + topN > 0 then n + topN else 0
  {
    if topN >= 0 then (if topN < n then topN else n)
    else if n + topN > 0 then n + topN else 0
  }

  /** The first `TopCount` positions of the stable descending ranking. */
  function EliteIndices(keys: seq<real>, topN: int): (e: seq<nat>)
    ensures |e| == TopCount(topN, |keys|)
    ensures forall k :: 0 <= k < |e| ==> e[k] < |keys|
    ensures Ranked(keys, e)
    ensures forall j, k :: 0 <= j < |keys| && j !in e && 0 <= k < |e| ==> Precedes(keys, e[k], j)
  {
    var r := Rank(keys, |keys|);
    var e := r[..TopCount(topN, |keys|)];
    forall j, k | 0 <= j < |keys| && j !in e && 0 <= k < |e|
      ensures Precedes(keys, e[k], j)
    {
      assert j in r;
      var p :| 0 <= p < |r| && r[p] == j;
    }
    e
  }

  /** The shared fitness of every member under the raw score `fit`, in
      population order: the score divided by the member's niche count. */
  function SharedKeys(pop: seq<Individual>, fit: Individual -> real): (keys: seq<real>)
    ensures |keys| == |pop|
    ensures forall i :: 0 <= i < |pop| ==> NicheCount(pop[i], pop, SigmaShare) >= 1
    ensures forall i :: 0 <= i < |pop| ==> keys[i] == fit(pop[i]) / (NicheCount(pop[i], pop, SigmaShare) as real)
  {
    seq(|pop|, i requires 0 <= i < |pop| =>
      assert pop[i] in pop;
      fit(pop[i]) / (NicheCount(pop[i], pop, SigmaShare) as real))
  }

  /** `select_best_with_sharing(population, notes, top_n)`: the population
      stably sorted by descending shared fitness, cut to `top_n`. */
  function SelectBest(pop: seq<Individual>, fit: Individual -> real, topN: int): (best: seq<Individual>)
    ensures |best| == TopCount(topN, |pop|)
    ensures var e := EliteIndices(SharedKeys(pop, fit), topN);
      forall k :: 0 <= k < |best| ==> best[k] == pop[e[k]]
  {
    var e := EliteIndices(SharedKeys(pop, fit), topN);
    seq(|e|, k requires 0 <= k < |e| => pop[e[k]])
  }

  /** The elites come in non-increasing shared fitness, ties in population
      order, and no member left out has a greater shared fitness than any
      member chosen. */
  lemma SelectBestOrder(keys: seq<real>, topN: int)
    ensures var e := EliteIndices(keys, topN);
      && (forall a, b :: 0 <= a < b < |e| ==> keys[e[a]] >= keys[e[b]])
      && (forall a, b :: 0 <= a < b < |e| && keys[e[a]] == keys[e[b]] ==> e[a] < e[b])
      && (forall j, k :: 0 <= j < |keys| && j !in e && 0 <= k < |e| ==> keys[j] <= keys[e[k]])
  {
    var e := EliteIndices(keys, topN);
    forall a, b | 0 <= a < b < |e|
      ensures keys[e[a]] >= keys[e[b]]
    {
      assert Precedes(keys, e[a], e[b]);
    }
  }

  /** The raw score of each tournament participant, in draw order. */
  function ParticipantScores(pop: seq<Individual>, fit: Individual -> real, picks: seq<nat>): (scores: seq<real>)
    requires Below(picks, |pop|)
    ensures |scores| == |picks|
    ensures forall k :: 0 <= k < |picks| ==> scores[k] == fit(pop[picks[k]])
  {
    seq(|picks|, k requires 0 <= k < |picks| => fit(pop[picks[k]]))
  }

  /** `tournament_selection(population, notes, tournament_size)` with the
      participants `random.choices` drew given as population positions;
      `max` of no participants raises `ValueError`. */
  function Tournament(pop: seq<Individual>, fit: Individual -> real, picks: seq<nat>): (r: Result<Individual>)
    requires Below(picks, |pop|)
    ensures r.Err? <==> |picks| == 0
    ensures r.Err? ==> r.fault == ValueError
    ensures r.Ok? ==> exists k :: 0 <= k < |picks| && r.value == pop[picks[k]]
  {
    if |picks| == 0 then Err(ValueError)
    else Ok(pop[picks[ArgMax(ParticipantScores(pop, fit, picks))]])
  }

  /** The winner is the first participant of maximal raw score. */
  lemma TournamentPicksFirstFittest(pop: seq<Individual>, fit: Individual -> real, picks: seq<nat>)
    requires Below(picks, |pop|) && |picks| >= 1
    ensures exists w ::
      && 0 <= w < |picks| && Tournament(pop, fit, picks) == Ok(pop[picks[w]])
      && (forall j :: 0 <= j < |picks| ==> fit(pop[picks[j]]) <= fit(pop[picks[w]]))
      && (forall j :: 0 <= j < w ==> fit(pop[picks[j]]) < fit(pop[picks[w]]))
  {
    var w := ArgMax(ParticipantScores(pop, fit, picks));
    assert Tournament(pop, fit, picks) == Ok(pop[picks[w]]);
  }
}
