/** The unique batch sampler: `GeneratorsExecutor.generate_unique_data`.

    The value source is modelled as a total oracle `source: nat -> Call<T>`:
    `source(i)` is what the (i+1)-th call returns, or that it raised.  The
    specification is the pure state machine `Iterate`, one `Attempt` per loop
    iteration; the method `GenerateUniqueData` runs the loop of the original
    and is proved to compute what `UniqueData` says. */
module GeneratorsExecutor {
  import opened Common

  /** The four ValueErrors of the parameter checks, and the UnboundLocalError
      raised when the very first call to the value source fails. */
  datatype SamplerError =
    | BatchSizeAboveAttempts      // batch_size > max_attempts
    | StagnationAboveAttempts     // max_iterations_without_change > max_attempts
    | NegativeStagnation          // max_iterations_without_change < 0
    | NonPositiveBatchSize        // batch_size <= 0
    | NewDataUnbound              // `new_data` read in `finally` before any successful call

  /** Why the sampling loop stopped. */
  datatype StopReason = BatchFilled | Stagnated | SourceFailed | AttemptsExhausted

  /** The loop state between iterations: the set `unique_data`, the counter
      `iterations_without_change`, and the local `new_data` (None while it is
      still unbound). */
  datatype Sampler<T> = Sampler(seen: set<T>, stale: int, last: Option<T>)

  /** The outcome of one loop iteration. */
  datatype Step<T> = Continue(next: Sampler<T>) | Break(next: Sampler<T>, reason: StopReason) | Unbound

  /** The outcome of a whole run that got past the parameter checks. */
  datatype Run<T> = Run(seen: set<T>, calls: nat, reason: StopReason)

  /** The first parameter check that fails, in the order the source checks them. */
  function ParameterError(batchSize: int, maxAttempts: int, maxStale: int): (e: Option<SamplerError>)
    ensures e == None <==> 0 < batchSize <= maxAttempts && 0 <= maxStale <= maxAttempts
    ensures e != Some(NewDataUnbound)
  {
    if batchSize > maxAttempts then Some(BatchSizeAboveAttempts)
    else if maxStale > maxAttempts then Some(StagnationAboveAttempts)
    else if maxStale < 0 then Some(NegativeStagnation)
    else if batchSize <= 0 then Some(NonPositiveBatchSize)
    else None
  }

  /** The state before the first iteration. */
  function Initial<T>(): Sampler<T>
  {
    Sampler({}, 0, None)
  }

  /** One iteration of the `for` loop: the `try` calls the source, the `finally`
      adds `new_data` (the returned value, or the previous one after a failure)
      and does the stagnation and batch-size accounting; a failure then ends the
      loop through the pending `break` of the `except` clause. */
  function Attempt<T>(s: Sampler<T>, c: Call<T>, batchSize: int, maxStale: int): (r: Step<T>)
    ensures r.Unbound? <==> c.Raised? && s.last.None?
    ensures !r.Unbound? ==> s.seen <= r.next.seen && |r.next.seen| <= |s.seen| + 1
    ensures c.Returned? ==> r.next.seen == s.seen + {c.value} && r.next.last == Some(c.value)
    ensures !r.Unbound? && |r.next.seen| == |s.seen| ==> r.next.stale == s.stale + 1
    ensures !r.Unbound? && |r.next.seen| != |s.seen| ==> r.next.stale == 0
    ensures r.Break? && r.reason == Stagnated <==> !r.Unbound? && |r.next.seen| == |s.seen| && r.next.stale == maxStale
    ensures r.Continue? ==> c.Returned? && |r.next.seen| != batchSize
    ensures c.Raised? && s.last.Some? && s.last.value in s.seen ==> r.Break? && r.next == Sampler(s.seen, s.stale + 1, s.last)
  {
    if c.Raised? && s.last.None? then Unbound
    else
      var v := if c.Returned? then c.value else s.last.value;
      var seen := s.seen + {v};
      assert v in s.seen ==> seen == s.seen;
      var same := |seen| == |s.seen|;
      var stale := if same then s.stale + 1 else 0;
      var next := Sampler(seen, stale, Some(v));
      if same && stale == maxStale then Break(next, Stagnated)
      else if |seen| == batchSize then Break(next, BatchFilled)
      else if c.Raised? then Break(next, SourceFailed)
      else Continue(next)
  }

  /** The loop from iteration `i` on, in state `s`. */
  function Iterate<T>(source: nat -> Call<T>, batchSize: int, maxAttempts: int, maxStale: int,
                      s: Sampler<T>, i: nat): Result<Run<T>, SamplerError>
    decreases maxAttempts - i
  {
    if i >= maxAttempts then Success(Run(s.seen, i, AttemptsExhausted))
    else
      match Attempt(s, source(i), batchSize, maxStale)
      case Unbound => Failure(NewDataUnbound)
      case Break(next, why) => Success(Run(next.seen, i + 1, why))
      case Continue(next) => Iterate(source, batchSize, maxAttempts, maxStale, next, i + 1)
  }

  /** What `generate_unique_data` computes: a parameter error, the failure of
      the first call, or the final set with the number of calls and the reason
      for stopping. */
  function UniqueData<T>(source: nat -> Call<T>, batchSize: int, maxAttempts: int, maxStale: int): Result<Run<T>, SamplerError>
  {
    match ParameterError(batchSize, maxAttempts, maxStale)
    case Some(e) => Failure(e)
    case None => Iterate(source, batchSize, maxAttempts, maxStale, Initial(), 0)
  }

  /** Every element of `seen` was returned by one of the first `calls` calls. */
  ghost predicate FromSource<T>(source: nat -> Call<T>, seen: set<T>, calls: nat)
  {
    forall x :: x in seen ==> exists j :: 0 <= j < calls && source(j) == Returned(x)
  }

  /** The invariant between iterations. */
  ghost predicate Good<T>(source: nat -> Call<T>, batchSize: int, s: Sampler<T>, i: nat)
  {
    && |s.seen| < batchSize
    && s.stale >= 0
    && (s.last.Some? ==> s.last.value in s.seen)
    && (s.last.Some? <==> i > 0)
    && FromSource(source, s.seen, i)
  }

  /** A value that enters the set during an iteration was returned by that
      iteration's call. */
  lemma AttemptFromSource<T>(source: nat -> Call<T>, batchSize: int, maxStale: int, s: Sampler<T>, i: nat)
    requires Good(source, batchSize, s, i)
    requires !Attempt(s, source(i), batchSize, maxStale).Unbound?
    ensures FromSource(source, Attempt(s, source(i), batchSize, maxStale).next.seen, i + 1)
    ensures Attempt(s, source(i), batchSize, maxStale).Continue? ==>
              Good(source, batchSize, Attempt(s, source(i), batchSize, maxStale).next, i + 1)
  {
    var next := Attempt(s, source(i), batchSize, maxStale).next;
    forall x | x in next.seen
      ensures exists j :: 0 <= j < i + 1 && source(j) == Returned(x)
    {
      if x !in s.seen {
        assert source(i) == Returned(x);
      }
    }
  }

  lemma {:induction false} IterateBounds<T>(source: nat -> Call<T>, batchSize: int, maxAttempts: int, maxStale: int,
                                            s: Sampler<T>, i: nat)
    requires i <= maxAttempts
    requires Good(source, batchSize, s, i)
    ensures var r := Iterate(source, batchSize, maxAttempts, maxStale, s, i);
            r.Success? ==>
              && s.seen <= r.value.seen
              && |r.value.seen| <= batchSize
              && i <= r.value.calls <= maxAttempts
              && FromSource(source, r.value.seen, r.value.calls)
              && (r.value.reason == Stagnated ==> maxStale >= 1)
              && (i < maxAttempts || s.seen != {} ==> r.value.seen != {})
    decreases maxAttempts - i
  {
    if i < maxAttempts {
      var st := Attempt(s, source(i), batchSize, maxStale);
      if !st.Unbound? {
        AttemptFromSource(source, batchSize, maxStale, s, i);
        if st.Continue? {
          IterateBounds(source, batchSize, maxAttempts, maxStale, st.next, i + 1);
        }
      }
    }
  }

  /** The stop reasons of one iteration, from a state short of a full batch. */
  lemma AttemptReasons<T>(s: Sampler<T>, c: Call<T>, batchSize: int, maxStale: int)
    requires |s.seen| < batchSize
    ensures var r := Attempt(s, c, batchSize, maxStale);
            && (r.Continue? ==> |r.next.seen| < batchSize)
            && (r.Break? ==> r.reason != AttemptsExhausted)
            && (r.Break? ==> (r.reason == BatchFilled <==> |r.next.seen| == batchSize))
            && (r.Break? && r.reason == SourceFailed ==> c.Raised?)
  {
  }

  /** What each stop reason means: the run stops with batch_size values
      exactly when it stops because the batch is full, an exhausted budget used
      every attempt, and a source failure was the last call made. */
  lemma {:induction false} IterateReasons<T>(source: nat -> Call<T>, batchSize: int, maxAttempts: int, maxStale: int,
                                             s: Sampler<T>, i: nat)
    requires i <= maxAttempts
    requires |s.seen| < batchSize
    ensures var r := Iterate(source, batchSize, maxAttempts, maxStale, s, i);
            r.Success? ==>
              && (r.value.reason == BatchFilled <==> |r.value.seen| == batchSize)
              && (r.value.reason == AttemptsExhausted ==> r.value.calls == maxAttempts)
              && (r.value.reason == SourceFailed ==> r.value.calls >= 1 && source(r.value.calls - 1).Raised?)
    decreases maxAttempts - i
  {
    if i < maxAttempts {
      var st := Attempt(s, source(i), batchSize, maxStale);
      AttemptReasons(s, source(i), batchSize, maxStale);
      if st.Continue? {
        IterateReasons(source, batchSize, maxAttempts, maxStale, st.next, i + 1);
      }
    }
  }

  /** Stagnation in general: once some value has been returned, if every
      further call returns a value already collected, the run stops by
      stagnation after exactly max_iterations_without_change - stale more
      calls, holding the same set. */
  lemma {:induction false} RepeatsStagnate<T>(source: nat -> Call<T>, batchSize: int, maxAttempts: int, maxStale: int,
                                              s: Sampler<T>, i: nat)
    requires Good(source, batchSize, s, i)
    requires i > 0 && s.stale < maxStale
    requires i + maxStale - s.stale <= maxAttempts
    requires forall j :: i <= j < i + maxStale - s.stale ==> source(j).Returned? && source(j).value in s.seen
    ensures Iterate(source, batchSize, maxAttempts, maxStale, s, i)
            == Success(Run(s.seen, (i + maxStale - s.stale) as nat, Stagnated))
    decreases maxStale - s.stale
  {
    var v := source(i).value;
    assert s.seen + {v} == s.seen;
    var st := Attempt(s, source(i), batchSize, maxStale);
    assert st.next == Sampler(s.seen, s.stale + 1, Some(v));
    if s.stale + 1 < maxStale {
      assert st.Continue?;
      AttemptFromSource(source, batchSize, maxStale, s, i);
      RepeatsStagnate(source, batchSize, maxAttempts, maxStale, st.next, i + 1);
    }
  }

  /** The stop reasons of a whole run: a short batch means an early stop by
      stagnation, source failure or budget, and each reason means what it says. */
  lemma RunReasons<T>(source: nat -> Call<T>, batchSize: int, maxAttempts: int, maxStale: int)
    ensures var r := UniqueData(source, batchSize, maxAttempts, maxStale);
            r.Success? ==>
              && (r.value.reason == BatchFilled <==> |r.value.seen| == batchSize)
              && (r.value.reason == AttemptsExhausted ==> r.value.calls == maxAttempts)
              && (r.value.reason == SourceFailed ==> r.value.calls >= 1 && source(r.value.calls - 1).Raised?)
  {
    if ParameterError(batchSize, maxAttempts, maxStale).None? {
      IterateReasons(source, batchSize, maxAttempts, maxStale, Initial(), 0);
    }
  }

  /** Failure inside the loop happens only at the first iteration. */
  lemma {:induction false} IterateFails<T>(source: nat -> Call<T>, batchSize: int, maxAttempts: int, maxStale: int,
                                           s: Sampler<T>, i: nat)
    requires Good(source, batchSize, s, i)
    ensures var r := Iterate(source, batchSize, maxAttempts, maxStale, s, i);
            r.Failure? ==> r.error == NewDataUnbound && i == 0 && source(0).Raised?
    decreases maxAttempts - i
  {
    if i < maxAttempts {
      var st := Attempt(s, source(i), batchSize, maxStale);
      if st.Continue? {
        AttemptFromSource(source, batchSize, maxStale, s, i);
        IterateFails(source, batchSize, maxAttempts, maxStale, st.next, i + 1);
      }
    }
  }

  /** The result has at most batch_size elements, the source is called at most
      max_attempts times, every element is a value some call returned, and with
      max_iterations_without_change = 0 the stagnation stop never fires. */
  lemma RunBounds<T>(source: nat -> Call<T>, batchSize: int, maxAttempts: int, maxStale: int)
    ensures var r := UniqueData(source, batchSize, maxAttempts, maxStale);
            r.Success? ==>
              && 0 < |r.value.seen| <= batchSize
              && r.value.calls <= maxAttempts
              && FromSource(source, r.value.seen, r.value.calls)
              && (maxStale == 0 ==> r.value.reason != Stagnated)
  {
    if ParameterError(batchSize, maxAttempts, maxStale).None? {
      IterateBounds(source, batchSize, maxAttempts, maxStale, Initial(), 0);
    }
  }

  /** All four parameter errors are reported before the source is consulted:
      the result does not depend on the source at all. */
  lemma ParameterErrorsFirst<T>(source: nat -> Call<T>, other: nat -> Call<T>, batchSize: int, maxAttempts: int, maxStale: int)
    requires ParameterError(batchSize, maxAttempts, maxStale).Some?
    ensures UniqueData(source, batchSize, maxAttempts, maxStale) == UniqueData(other, batchSize, maxAttempts, maxStale)
    ensures UniqueData(source, batchSize, maxAttempts, maxStale) == Failure(ParameterError(batchSize, maxAttempts, maxStale).value)
  {
  }

  /** Past the parameter checks, the call fails exactly when the very first
      call to the source raises: reading the still unbound `new_data` in
      `finally` then raises in turn.  A later failure is absorbed. */
  lemma FirstCallRaises<T>(source: nat -> Call<T>, batchSize: int, maxAttempts: int, maxStale: int)
    requires ParameterError(batchSize, maxAttempts, maxStale).None?
    ensures UniqueData(source, batchSize, maxAttempts, maxStale).Failure? <==> source(0).Raised?
    ensures source(0).Raised? ==> UniqueData(source, batchSize, maxAttempts, maxStale) == Failure(NewDataUnbound)
  {
    IterateFails(source, batchSize, maxAttempts, maxStale, Initial(), 0);
  }

  /** A failure after a successful call never raises: by the invariant `Good`,
      the stale `new_data` is already in the set, so the run ends with the set
      unchanged. */
  lemma LaterFailureEndsRun<T>(source: nat -> Call<T>, batchSize: int, maxAttempts: int, maxStale: int,
                               s: Sampler<T>, i: nat)
    requires i < maxAttempts
    requires Good(source, batchSize, s, i)
    requires i > 0 && source(i).Raised?
    ensures Iterate(source, batchSize, maxAttempts, maxStale, s, i) == Success(Run(s.seen, i + 1, if s.stale + 1 == maxStale then Stagnated else SourceFailed))
  {
    assert s.last.Some?;
  }

  /** If the first batch_size calls return pairwise distinct values, the run
      stops after exactly batch_size calls with exactly those values. */
  lemma AllNewFillsBatch<T>(source: nat -> Call<T>, batchSize: int, maxAttempts: int, maxStale: int)
    requires ParameterError(batchSize, maxAttempts, maxStale).None?
    requires forall i :: 0 <= i < batchSize ==> source(i).Returned?
    requires forall i, j :: 0 <= i < j < batchSize ==> source(i).value != source(j).value
    ensures UniqueData(source, batchSize, maxAttempts, maxStale)
            == Success(Run(Returns(source, batchSize as nat), batchSize as nat, BatchFilled))
    ensures |Returns(source, batchSize as nat)| == batchSize
  {
    assert Returns(source, 0) == {};
    AllNewFrom(source, batchSize, maxAttempts, maxStale, Initial(), 0);
  }

  /** The values of the first `n` calls. */
  ghost function Returns<T>(source: nat -> Call<T>, n: nat): set<T>
    requires forall k :: 0 <= k < n ==> source(k).Returned?
  {
    set k | 0 <= k < n :: source(k).value
  }

  lemma ReturnsStep<T>(source: nat -> Call<T>, n: nat)
    requires forall k :: 0 <= k <= n ==> source(k).Returned?
    requires forall k :: 0 <= k < n ==> source(k).value != source(n).value
    ensures Returns(source, n + 1) == Returns(source, n) + {source(n).value}
    ensures source(n).value !in Returns(source, n)
  {
  }

  lemma {:induction false} AllNewFrom<T>(source: nat -> Call<T>, batchSize: int, maxAttempts: int, maxStale: int,
                                         s: Sampler<T>, i: nat)
    requires 0 < batchSize <= maxAttempts
    requires i < batchSize
    requires forall k :: 0 <= k < batchSize ==> source(k).Returned?
    requires forall k, j :: 0 <= k < j < batchSize ==> source(k).value != source(j).value
    requires s.seen == Returns(source, i) && |s.seen| == i
    ensures Iterate(source, batchSize, maxAttempts, maxStale, s, i)
            == Success(Run(Returns(source, batchSize as nat), batchSize as nat, BatchFilled))
    ensures |Returns(source, batchSize as nat)| == batchSize
    decreases batchSize - i
  {
    var v := source(i).value;
    ReturnsStep(source, i);
    var seen := s.seen + {v};
    assert |seen| == i + 1;
    assert Returns(source, i + 1) == seen;
    var st := Attempt(s, source(i), batchSize, maxStale);
    assert st.next == Sampler(seen, 0, Some(v));
    if i + 1 == batchSize {
      assert st == Break(Sampler(seen, 0, Some(v)), BatchFilled);
    } else {
      assert st == Continue(Sampler(seen, 0, Some(v)));
      AllNewFrom(source, batchSize, maxAttempts, maxStale, st.next, i + 1);
    }
  }

  /** A source that returns the same value forever: with a threshold of k >= 1
      the run stops by stagnation after k + 1 calls, holding that one value. */
  lemma ConstantSourceStagnates<T>(source: nat -> Call<T>, v: T, batchSize: int, maxAttempts: int, maxStale: int)
    requires ParameterError(batchSize, maxAttempts, maxStale).None?
    requires forall i :: source(i) == Returned(v)
    requires batchSize >= 2 && 1 <= maxStale < maxAttempts
    ensures UniqueData(source, batchSize, maxAttempts, maxStale) == Success(Run({v}, maxStale as nat + 1, Stagnated))
  {
    var first := Attempt(Initial(), source(0), batchSize, maxStale);
    assert first == Continue(Sampler({v}, 0, Some(v)));
    RepeatFrom(source, v, batchSize, maxAttempts, maxStale, 1);
  }

  lemma {:induction false} RepeatFrom<T>(source: nat -> Call<T>, v: T, batchSize: int, maxAttempts: int, maxStale: int, i: nat)
    requires forall i :: source(i) == Returned(v)
    requires batchSize >= 2 && 1 <= maxStale < maxAttempts
    requires 1 <= i <= maxStale
    ensures Iterate(source, batchSize, maxAttempts, maxStale, Sampler({v}, i - 1, Some(v)), i)
            == Success(Run({v}, maxStale as nat + 1, Stagnated))
    decreases maxStale - i
  {
    var st := Attempt(Sampler({v}, i - 1, Some(v)), source(i), batchSize, maxStale);
    assert {v} + {v} == {v};
    if i == maxStale {
      assert st == Break(Sampler({v}, i, Some(v)), Stagnated);
    } else {
      assert st == Continue(Sampler({v}, i, Some(v)));
      RepeatFrom(source, v, batchSize, maxAttempts, maxStale, i + 1);
    }
  }

  /** One pass of the loop body: the `try` that calls the source, the `except`
      that schedules a `break`, and the `finally` block that adds `new_data`,
      updates the stagnation counter and decides whether the loop ends. */
  method AttemptOnce<T(==)>(uniqueData: set<T>, iterationsWithoutChange: int, newData: Option<T>,
                            call: Call<T>, batchSize: int, maxIterationsWithoutChange: int)
    returns (step: Step<T>)
    ensures step == Attempt(Sampler(uniqueData, iterationsWithoutChange, newData), call,
                            batchSize, maxIterationsWithoutChange)
  {
    var data := newData;
    var raised := false;
    match call {
      case Returned(v) => data := Some(v);
      case Raised => raised := true;
    }
    // finally:
    if data.None? {
      return Unbound;
    }
    var dataBefore := |uniqueData|;
    var seen := uniqueData + {data.value};
    var dataAfter := |seen|;
    var stale := iterationsWithoutChange;
    if dataBefore == dataAfter {
      stale := stale + 1;
      if stale == maxIterationsWithoutChange {
        return Break(Sampler(seen, stale, data), Stagnated);
      }
    } else {
      stale := 0;
    }
    if |seen| == batchSize {
      return Break(Sampler(seen, stale, data), BatchFilled);
    }
    if raised {
      // the `break` of the `except` clause, pending while `finally` ran
      return Break(Sampler(seen, stale, data), SourceFailed);
    }
    return Continue(Sampler(seen, stale, data));
  }

  /** The `for` loop of `generate_unique_data`, entered once the parameter
      checks have passed: the final `unique_data`, or the error that escapes
      the `finally` block. */
  method SamplingLoop<T(==)>(source: nat -> Call<T>, batchSize: int, maxAttempts: int, maxIterationsWithoutChange: int)
    returns (r: Result<set<T>, SamplerError>)
    requires ParameterError(batchSize, maxAttempts, maxIterationsWithoutChange).None?
    ensures UniqueData(source, batchSize, maxAttempts, maxIterationsWithoutChange).Failure? ==>
              r == Failure(UniqueData(source, batchSize, maxAttempts, maxIterationsWithoutChange).error)
    ensures UniqueData(source, batchSize, maxAttempts, maxIterationsWithoutChange).Success? ==>
              r == Success(UniqueData(source, batchSize, maxAttempts, maxIterationsWithoutChange).value.seen)
  {
    var uniqueData: set<T> := {};
    var iterationsWithoutChange := 0;
    var newData: Option<T> := None;
    ghost var spec := UniqueData(source, batchSize, maxAttempts, maxIterationsWithoutChange);
    var attempt: nat := 0;
    while attempt < maxAttempts
      invariant attempt <= maxAttempts
      invariant Iterate(source, batchSize, maxAttempts, maxIterationsWithoutChange,
                        Sampler(uniqueData, iterationsWithoutChange, newData), attempt) == spec
      decreases maxAttempts - attempt
    {
      var step := AttemptOnce(uniqueData, iterationsWithoutChange, newData, source(attempt),
                              batchSize, maxIterationsWithoutChange);
      match step {
        case Unbound =>
          return Failure(NewDataUnbound);
        case Break(next, _) =>
          uniqueData := next.seen;
          break;
        case Continue(next) =>
          uniqueData, iterationsWithoutChange, newData := next.seen, next.stale, next.last;
      }
      attempt := attempt + 1;
    }
    return Success(uniqueData);
  }

  /** `generate_unique_data`: the parameter checks in source order, then the
      sampling loop with its `try/except/finally`, then `list(unique_data)`. */
  method GenerateUniqueData<T(==)>(source: nat -> Call<T>, batchSize: int, maxAttempts: int, maxIterationsWithoutChange: int)
    returns (r: Result<seq<T>, SamplerError>)
    ensures UniqueData(source, batchSize, maxAttempts, maxIterationsWithoutChange).Failure? ==>
              r == Failure(UniqueData(source, batchSize, maxAttempts, maxIterationsWithoutChange).error)
    ensures UniqueData(source, batchSize, maxAttempts, maxIterationsWithoutChange).Success? ==>
              r.Success? && Elements(r.value) == UniqueData(source, batchSize, maxAttempts, maxIterationsWithoutChange).value.seen
    ensures r.Success? ==> NoDuplicates(r.value) && 0 < |r.value| <= batchSize
    ensures r.Success? ==> forall x :: x in r.value ==> exists j :: 0 <= j < maxAttempts && source(j) == Returned(x)
  {
    if batchSize > maxAttempts {
      return Failure(BatchSizeAboveAttempts);
    }
    if maxIterationsWithoutChange > maxAttempts {
      return Failure(StagnationAboveAttempts);
    }
    if maxIterationsWithoutChange < 0 {
      return Failure(NegativeStagnation);
    }
    if batchSize <= 0 {
      return Failure(NonPositiveBatchSize);
    }
    var uniqueData := SamplingLoop(source, batchSize, maxAttempts, maxIterationsWithoutChange);
    if uniqueData.Failure? {
      return Failure(uniqueData.error);
    }
    RunBounds(source, batchSize, maxAttempts, maxIterationsWithoutChange);
    var values := ToList(uniqueData.value);
    return Success(values);
  }
}
