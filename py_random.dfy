/** The parts of Python's `random` module that the generators use, driven by
    supplied draws instead of a pseudo-random stream.  A draw is any natural
    number; it is reduced into the range the library function would sample
    from, so every outcome the library can produce is the outcome of some
    draw, and nothing is assumed about the distribution. */
module PyRandom {
  import opened Common

  /** `random.choice(population)`: None stands for the IndexError raised on an
      empty population. */
  function Choice<T>(population: seq<T>, draw: nat): (r: Option<T>)
    ensures r.None? <==> |population| == 0
    ensures r.Some? ==> r.value in population
  {
    if |population| == 0 then None else Some(population[draw % |population|])
  }

  /** `random.randint(lo, hi)`: None stands for the ValueError raised when the
      range is empty. */
  function Randint(lo: int, hi: int, draw: nat): (r: Option<int>)
    ensures r.None? <==> lo > hi
    ensures r.Some? ==> lo <= r.value <= hi
  {
    if lo > hi then None else Some(lo + draw % (hi - lo + 1))
  }

  /** No element of a population is out of reach of `Choice`. */
  lemma ChoiceReaches<T>(population: seq<T>, k: nat)
    requires k < |population|
    ensures Choice(population, k) == Some(population[k])
  {
  }

  /** No value of the range is out of reach of `Randint`. */
  lemma RandintReaches(lo: int, hi: int, n: int)
    requires lo <= n <= hi
    ensures Randint(lo, hi, (n - lo) as nat) == Some(n)
  {
  }

  /** `random.shuffle(a)`: the Fisher-Yates pass of the library, swapping
      position i (from the last down to 1) with a drawn position j <= i.
      The array ends up holding a permutation of what it held. */
  method Shuffle<T>(a: array<T>, draws: nat -> nat)
    modifies a
    ensures multiset(a[..]) == old(multiset(a[..]))
  {
    var i := a.Length - 1;
    while i > 0
      invariant -1 <= i < a.Length
      invariant multiset(a[..]) == old(multiset(a[..]))
    {
      var j := draws(i) % (i + 1);
      a[i], a[j] := a[j], a[i];
      i := i - 1;
    }
  }
}
