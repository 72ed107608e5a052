/** Sequence helpers shared by the melody, selection and chord models:
    counting loops, first-occurrence search and first-maximum search. */
module Seqs {

  /** The number of passes `range(x)` makes. */
  function NonNegative(x: int): nat {
    if x < 0 then 0 else x
  }

  /** A remainder of a number already below the modulus is the number. */
  lemma ModSmall(x: int, m: int)
    requires 0 <= x < m
    ensures x % m == x
  {
  }

  function Abs(x: int): nat {
    if x < 0 then -x else x
  }

  /** The number of indices `i` with `lo <= i < hi` for which `P(i)` holds,
      counted in loop order as a `for i in range(lo, hi)` loop does. */
  function CountIf(lo: int, hi: int, P: int -> bool): (n: nat)
    ensures n <= if lo < hi then hi - lo else 0
    decreases hi - lo
  {
    if hi <= lo then 0 else (if P(lo) then 1 else 0) + CountIf(lo + 1, hi, P)
  }

  /** One step of the count: the first index, then the rest. */
  lemma CountIfStep(lo: int, hi: int, P: int -> bool)
    requires lo < hi
    ensures CountIf(lo, hi, P) == (if P(lo) then 1 else 0) + CountIf(lo + 1, hi, P)
  {
  }

  /** The set of indices a `CountIf` counts. */
  function Where(lo: int, hi: int, P: int -> bool): set<int> {
    set i | lo <= i < hi && P(i)
  }

  /** Counting in loop order agrees with the size of the set of counted indices. */
  lemma {:induction false} CountIfIsCardinality(lo: int, hi: int, P: int -> bool)
    ensures CountIf(lo, hi, P) == |Where(lo, hi, P)|
    decreases hi - lo
  {
    if hi <= lo {
      assert Where(lo, hi, P) == {};
    } else {
      CountIfIsCardinality(lo + 1, hi, P);
      var rest := Where(lo + 1, hi, P);
      if P(lo) {
        assert Where(lo, hi, P) == {lo} + rest;
        assert lo !in rest;
      } else {
        assert Where(lo, hi, P) == rest;
      }
    }
  }

  /** A position counted by `CountIf` makes the count positive. */
  lemma {:induction false} CountIfWitness(lo: int, hi: int, P: int -> bool, i: int)
    requires lo <= i < hi && P(i)
    ensures CountIf(lo, hi, P) >= 1
    decreases hi - lo
  {
    if i > lo {
      CountIfWitness(lo + 1, hi, P, i);
    }
  }

  /** A count is positive exactly when some index in range satisfies the predicate. */
  lemma CountIfPositive(lo: int, hi: int, P: int -> bool)
    ensures CountIf(lo, hi, P) > 0 <==> exists i :: lo <= i < hi && P(i)
  {
    CountIfIsCardinality(lo, hi, P);
    if i :| lo <= i < hi && P(i) {
      assert i in Where(lo, hi, P);
    }
  }

  /** The position of the first occurrence of `x`, as Python's `list.index`. */
  function FirstIndex<T(==)>(xs: seq<T>, x: T): (k: nat)
    requires x in xs
    ensures k < |xs| && xs[k] == x
    ensures forall j :: 0 <= j < k ==> xs[j] != x
  {
    if xs[0] == x then 0 else 1 + FirstIndex(xs[1..], x)
  }

  /** The position of the first maximal key, as Python's `max` with a key
      function: a later element replaces the running maximum only when its
      key is strictly larger. */
  function ArgMax(keys: seq<real>): (p: nat)
    requires |keys| > 0
    ensures p < |keys|
    ensures forall j :: 0 <= j < |keys| ==> keys[j] <= keys[p]
    ensures forall j :: 0 <= j < p ==> keys[j] < keys[p]
  {
    if |keys| == 1 then 0
    else
      var q := ArgMax(keys[..|keys| - 1]);
      if keys[|keys| - 1] > keys[q] then |keys| - 1 else q
  }

  function Sum(xs: seq<int>): int {
    if |xs| == 0 then 0 else Sum(xs[..|xs| - 1]) + xs[|xs| - 1]
  }

}
