/** `NamesGenerator.generate_full_names`: sample first names and last names
    with the same batch parameters and locales, optionally shuffle both lists,
    and pair them up as "first last". */
module NamesGenerator {
  import opened Common
  import PyRandom
  import GE = GeneratorsExecutor

  /** A Faker name provider configured with a list of locales: the value
      source `generate_first_names` or `generate_last_names` hands to the
      sampler. */
  type NameProvider = seq<string> -> (nat -> Call<string>)

  /** `zip(first_names, last_names)` turned into "first last" strings. */
  function FullNames(firstNames: seq<string>, lastNames: seq<string>): (r: seq<string>)
    ensures |r| == Min(|firstNames|, |lastNames|)
    ensures forall i :: 0 <= i < |r| ==> r[i] == firstNames[i] + " " + lastNames[i]
    decreases |firstNames|
  {
    if firstNames == [] || lastNames == [] then []
    else [firstNames[0] + " " + lastNames[0]] + FullNames(firstNames[1..], lastNames[1..])
  }

  /** `random.shuffle` on a list: copied into an array, shuffled in place, read back. */
  method ShuffleList(xs: seq<string>, draws: nat -> nat) returns (ys: seq<string>)
    ensures multiset(ys) == multiset(xs)
    ensures |ys| == |xs|
    ensures forall x :: x in ys ==> x in xs
  {
    var a := new string[|xs|](i requires 0 <= i < |xs| => xs[i]);
    assert a[..] == xs;
    PyRandom.Shuffle(a, draws);
    ys := a[..];
    assert forall x :: x in ys ==> x in multiset(xs);
  }

  /** `generate_full_names`.  `firstNames` and `lastNames` are the lists the two
      sub-generations returned (their order is the sampler's), `pairedFirst`
      and `pairedLast` the lists after the optional shuffle. */
  method GenerateFullNames(batchSize: int, maxAttempts: int := 1000000, maxIterationsWithoutChange: int := 50000,
                           locales: seq<string> := ["en_US", "it_IT"], randomShuffling: bool := true,
                           firstNameProvider: NameProvider, lastNameProvider: NameProvider,
                           firstShuffle: nat -> nat, lastShuffle: nat -> nat)
    returns (r: Result<seq<string>, GE.SamplerError>,
             ghost firstNames: seq<string>, ghost lastNames: seq<string>,
             ghost pairedFirst: seq<string>, ghost pairedLast: seq<string>)
    ensures var f := GE.UniqueData(firstNameProvider(locales), batchSize, maxAttempts, maxIterationsWithoutChange);
            var l := GE.UniqueData(lastNameProvider(locales), batchSize, maxAttempts, maxIterationsWithoutChange);
            && (f.Failure? ==> r == Failure(f.error))
            && (f.Success? && l.Failure? ==> r == Failure(l.error))
            && (f.Success? && l.Success? ==>
                  && r.Success?
                  && Elements(firstNames) == f.value.seen && NoDuplicates(firstNames)
                  && Elements(lastNames) == l.value.seen && NoDuplicates(lastNames)
                  && (forall x :: x in pairedFirst ==> x in f.value.seen)
                  && (forall x :: x in pairedLast ==> x in l.value.seen))
    ensures r.Success? ==> |r.value| == Min(|firstNames|, |lastNames|) <= batchSize
    ensures r.Success? ==> r.value == FullNames(pairedFirst, pairedLast)
    ensures r.Success? ==> multiset(pairedFirst) == multiset(firstNames) && multiset(pairedLast) == multiset(lastNames)
    ensures r.Success? && !randomShuffling ==> pairedFirst == firstNames && pairedLast == lastNames
  {
    firstNames, lastNames, pairedFirst, pairedLast := [], [], [], [];
    var firstList: seq<string> := [];
    var lastList: seq<string> := [];
    var firsts := GE.GenerateUniqueData(firstNameProvider(locales), batchSize, maxAttempts, maxIterationsWithoutChange);
    if firsts.Failure? {
      return Failure(firsts.error), firstNames, lastNames, pairedFirst, pairedLast;
    }
    firstList := firstList + firsts.value;
    var lasts := GE.GenerateUniqueData(lastNameProvider(locales), batchSize, maxAttempts, maxIterationsWithoutChange);
    if lasts.Failure? {
      return Failure(lasts.error), firstNames, lastNames, pairedFirst, pairedLast;
    }
    lastList := lastList + lasts.value;
    firstNames, lastNames := firstList, lastList;
    if randomShuffling {
      firstList := ShuffleList(firstList, firstShuffle);
      lastList := ShuffleList(lastList, lastShuffle);
    }
    pairedFirst, pairedLast := firstList, lastList;
    r := Success(FullNames(firstList, lastList));
  }
}
