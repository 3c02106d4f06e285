# data-generator: a verified model of the sampling core

data-generator produces batches of unique synthetic values: names, codes,
card numbers, IBANs and more. Most of it forwards Faker's providers to one
shared sampler. This project models the parts with logic of their own and
proves what they promise:

- **GeneratorsExecutor** (`generators_executor.dfy`) models the unique batch
  sampler `generate_unique_data`. It checks four parameters, then repeatedly
  calls a value source, collects the results in a set, and stops when the
  batch is full, when the stagnation counter reaches its threshold, when the
  source raises, or when the attempt budget runs out. The specification is
  the state machine `UniqueData` / `Iterate` / `Attempt`. The imperative
  method `GenerateUniqueData` runs the original loop and is proved to compute
  exactly what `UniqueData` says.
- **ValidCardNumberGenerator** (`valid_card_number_generator.dfy`) models the
  Luhn mod-10 check of ISO/IEC 7812-1, Annex B. The method works on an array
  and doubles digits in place, as the source does. It is proved equal to the
  right-to-left reference sum `LuhnSum`. The module also has the bounded
  first-match search for a passing card number.
- **ValidIbanGenerator** (`valid_iban_generator.dfy`) models the random digit
  strings and the retry loop around an IBAN assembler. The assembler is a
  parameter.
- **GenericCodesGenerator** (`generic_codes_generator.dfy`) models the
  alphabet, the random code, and the validation in `generate_codes` before
  it calls the sampler.
- **DataGenerator** (`data_generator.dfy`) models `__get_locale` (`split`,
  index, `upper`) and the `__setattr__` guard that keeps ten generator
  attributes fixed.
- **NamesGenerator** (`names_generator.dfy`) models `generate_full_names`:
  two sampled lists, optionally shuffled, zipped into "first last" strings.
- **Common** and **PyRandom** (`common.dfy`, `py_random.dfy`) are shared
  vocabulary. PyRandom models `random.choice`, `random.randint` and
  `random.shuffle` (Fisher–Yates, in place on an array).

Randomness comes in as supplied draws: natural numbers reduced into the
range the library would sample from. So every outcome the library can
produce is reachable, and nothing is assumed about distributions. A
zero-argument value source (a Faker provider, or the partial function built
by `generate_codes`) is a total oracle `nat -> Call<T>`. `source(i)` is the
outcome of the (i+1)-th call: `Returned(v)` or `Raised`. Exceptions are
modelled as `Failure` values of `Result` or as `None` of `Option`:

- the four `ValueError`s of the sampler;
- the three `ValueError`s of `generate_codes`;
- the `IndexError` of `random.choice` on an empty list;
- the `AttributeError` of the write guard.

When the value source raises, the `except` clause schedules a `break` and the `finally`
block still runs:

- After an earlier successful call, `finally` re-adds the previous value,
  which is already in the set. The stagnation counter goes up by one. The
  loop then ends with a normal return. It ends by stagnation if the counter
  just reached the threshold, and otherwise by the source failure.
- On the very first call, `new_data` is still unbound. The `finally` block
  therefore raises `UnboundLocalError`, and `generate_unique_data` raises
  instead of returning. The model reports this as `Failure(NewDataUnbound)`
  (`GeneratorsExecutor.FirstCallRaises`).

So a failing call normally just ends the batch. Only on the very first call
does the `finally` block raise instead.

## Model

| member | source | states |
|---|---|---|
| GeneratorsExecutor.ParameterError | data_generator_categories/generators_executor.py:33-51 | no error exactly when 0 < batch_size <= max_attempts and 0 <= max_iterations_without_change <= max_attempts; the checks are taken in source order, and the unbound-variable error never comes from them |
| GeneratorsExecutor.Attempt | data_generator_categories/generators_executor.py:54-71 | one iteration: it fails exactly when the call raises before any value was bound; the set grows by at most one (by the returned value when there is one); the counter goes up by one when the size is unchanged and resets to 0 when it grows; the stagnation stop fires exactly when the size is unchanged and the counter equals the threshold; the loop goes on only after a returned value that leaves the set short of batch_size; a failure after a success re-adds the old value and stops with the set unchanged |
| GeneratorsExecutor.AttemptFromSource | data_generator_categories/generators_executor.py:56-60 | a value that enters the set was returned by that iteration's call, and the loop invariant holds again after a continuing iteration |
| GeneratorsExecutor.IterateBounds | data_generator_categories/generators_executor.py:53-71 | from any reachable state, a finished run only grows the set, ends with at most batch_size values, makes between i and max_attempts calls, holds only returned values, stops by stagnation only when the threshold is at least 1, and is non-empty |
| GeneratorsExecutor.IterateFails | data_generator_categories/generators_executor.py:55-60 | the loop can end in an error only at the first iteration, only when the first call raised, and that error is the unbound `new_data` |
| GeneratorsExecutor.RunBounds | data_generator_categories/generators_executor.py:53-73 | a successful run returns between 1 and batch_size values, each returned by one of the calls made, after at most max_attempts calls; with max_iterations_without_change = 0 it never stops by stagnation |
| GeneratorsExecutor.ParameterErrorsFirst | data_generator_categories/generators_executor.py:33-51 | a parameter error is reported before the source is consulted: the result is that error, whatever the source |
| GeneratorsExecutor.FirstCallRaises | data_generator_categories/generators_executor.py:55-60 | with valid parameters the call fails if and only if the first call to the source raises, and then with the unbound-variable error |
| GeneratorsExecutor.LaterFailureEndsRun | data_generator_categories/generators_executor.py:55-66 | a failure at a later attempt ends the run with the set unchanged after one more counted call, by stagnation when the bumped counter hits the threshold and by source failure otherwise |
| GeneratorsExecutor.AllNewFillsBatch | data_generator_categories/generators_executor.py:70-71 | when the first batch_size calls return pairwise distinct values, the run stops, batch full, after exactly batch_size calls with exactly those batch_size values |
| GeneratorsExecutor.AttemptReasons | data_generator_categories/generators_executor.py:54-71 | from a state short of a full batch, one iteration continues only with the set still short, stops with batch_size values exactly when it stops because the batch is full, and stops by source failure only after a raising call |
| GeneratorsExecutor.IterateReasons | data_generator_categories/generators_executor.py:53-71 | from any state short of a full batch, a finished run holds batch_size values exactly when it stopped because the batch was full; an exhausted budget means max_attempts calls; a source failure means the last call raised |
| GeneratorsExecutor.RunReasons | data_generator_categories/generators_executor.py:53-73 | the same three facts for a whole run: a batch shorter than batch_size means an early stop by stagnation, source failure or budget |
| GeneratorsExecutor.RepeatsStagnate | data_generator_categories/generators_executor.py:63-66 | once a value has been returned, if every further call returns a value already collected (a source cycling through the collected values), the run stops by stagnation after exactly threshold - counter more calls, holding the same set |
| GeneratorsExecutor.ConstantSourceStagnates | data_generator_categories/generators_executor.py:63-66 | a source that always returns the same value, with threshold k >= 1, stops by stagnation after k + 1 calls holding that one value |
| GeneratorsExecutor.AttemptOnce | data_generator_categories/generators_executor.py:54-71 | the imperative loop body (try, except, finally) computes the step `Attempt` specifies |
| GeneratorsExecutor.SamplingLoop | data_generator_categories/generators_executor.py:53-71 | the `for` loop ends with the error or the final set that `UniqueData` specifies |
| GeneratorsExecutor.GenerateUniqueData | data_generator_categories/generators_executor.py:7-73 | returns the specified error, or a list whose elements are exactly the specified final set, with no duplicates, 1 to batch_size long, each element returned by one of the first max_attempts calls |
| Common.ToList | data_generator_categories/generators_executor.py:73 | `list(unique_data)` holds every element of the set exactly once |
| Common.DigitsAreDigits | data_generator_categories/generic_codes_generator.py:31 | `string.digits` is exactly the ten decimal digits |
| Common.AsciiCaseTables | data_generator.py:81 | `string.ascii_lowercase` and `string.ascii_uppercase` hold the 26 letters in alphabet order, so equal positions are the two cases of one letter |
| PyRandom.Choice | data_generator_categories/generators_helpers/iban/valid_iban_generator.py:28 | fails exactly on an empty population, and otherwise yields one of its elements |
| PyRandom.ChoiceReaches | data_generator_categories/generic_codes_generator.py:35 | every element of the population is the outcome of some draw |
| PyRandom.Randint | data_generator_categories/generic_codes_generator.py:34 | fails exactly when lo > hi, and otherwise yields a value in [lo, hi] |
| PyRandom.RandintReaches | data_generator_categories/generic_codes_generator.py:34 | every value of [lo, hi] is the outcome of some draw |
| PyRandom.Shuffle | data_generator_categories/names_generator.py:153-155 | the shuffled array holds a permutation of its old contents |
| ValidCardNumberGenerator.DigitValue | data_generator_categories/generators_helpers/card_number/valid_card_number_generator.py:10 | `int(d)` of a digit character is in 0..9 |
| ValidCardNumberGenerator.Contribution | data_generator_categories/generators_helpers/card_number/valid_card_number_generator.py:14-17 | an undoubled digit adds itself; a doubled digit adds a value in 0..9 that is congruent to twice the digit modulo 9, and 0 only for 0 |
| ValidCardNumberGenerator.DigitsOf | data_generator_categories/generators_helpers/card_number/valid_card_number_generator.py:10 | `[int(d) for d in s]` has one entry per character, each in 0..9, and writing each entry back as a digit character gives back that character |
| ValidCardNumberGenerator.SumOfContributions | data_generator_categories/generators_helpers/card_number/valid_card_number_generator.py:14-20 | summing the per-position contributions gives the right-to-left Luhn sum of the standard |
| ValidCardNumberGenerator.ParseDigits | data_generator_categories/generators_helpers/card_number/valid_card_number_generator.py:9-12 | parsing fails exactly when some character is not a digit, and otherwise yields a fresh array of the digit values |
| ValidCardNumberGenerator.DoubleAlternate | data_generator_categories/generators_helpers/card_number/valid_card_number_generator.py:14-17 | the in-place pass doubles exactly the positions an odd distance left of the last digit, taking 9 off a doubled value above 9, and leaves the others alone |
| ValidCardNumberGenerator.SumOf | data_generator_categories/generators_helpers/card_number/valid_card_number_generator.py:19 | `sum(digits)` over the array |
| ValidCardNumberGenerator.LuhnChecksum | data_generator_categories/generators_helpers/card_number/valid_card_number_generator.py:8-20 | returns True exactly when the string is all digits and its Luhn sum is a multiple of 10 |
| ValidCardNumberGenerator.LastDigitUndoubled | data_generator_categories/generators_helpers/card_number/valid_card_number_generator.py:14-20 | the last digit is never doubled: it adds itself to the sum of the rest, whose doubling starts one place to its left |
| ValidCardNumberGenerator.CheckDigitUnique | data_generator_categories/generators_helpers/card_number/valid_card_number_generator.py:14-20 | for every digit prefix, the computed check digit completes a passing number, and no other final digit does |
| ValidCardNumberGenerator.NonDigitFails | data_generator_categories/generators_helpers/card_number/valid_card_number_generator.py:9-12 | a string with a non-digit character fails the check |
| ValidCardNumberGenerator.EmptyPasses | data_generator_categories/generators_helpers/card_number/valid_card_number_generator.py:9-20 | the empty string passes: no digits, sum 0 |
| ValidCardNumberGenerator.ExampleValid | data_generator_categories/generators_helpers/card_number/valid_card_number_generator.py:19-20 | "4539148803436467" has Luhn sum 80 and passes |
| ValidCardNumberGenerator.ExampleInvalid | data_generator_categories/generators_helpers/card_number/valid_card_number_generator.py:19-20 | "1234567812345678" has Luhn sum 68 and fails |
| ValidCardNumberGenerator.FirstPassingIsFirst | data_generator_categories/generators_helpers/card_number/valid_card_number_generator.py:26-29 | the reference search finds an attempt below max_attempts whose candidate passes while all earlier ones fail, and finds none only when every attempt fails |
| ValidCardNumberGenerator.Generate | data_generator_categories/generators_helpers/card_number/valid_card_number_generator.py:22-34 | max_attempts defaults to 1000000; returns the candidate of the first passing attempt among the first max_attempts, or None when there is none; a returned number passes the check; with max_attempts <= 0 the answer is None |
| ValidIbanGenerator.RandomDigits | data_generator_categories/generators_helpers/iban/valid_iban_generator.py:13-22 | the string has the requested length and only the characters 0-9 |
| ValidIbanGenerator.RandomDigitsReaches | data_generator_categories/generators_helpers/iban/valid_iban_generator.py:22 | every digit string of the requested length is the outcome of some draws |
| ValidIbanGenerator.MakeCandidate | data_generator_categories/generators_helpers/iban/valid_iban_generator.py:28-30 | an attempt's arguments are a whitelisted country code, a 4-digit bank code and a 10-digit account code; the choice fails exactly on an empty whitelist |
| ValidIbanGenerator.Generate | data_generator_categories/generators_helpers/iban/valid_iban_generator.py:24-45 | max_attempts defaults to 1000000; an empty whitelist raises at the first attempt and is not retried; at most max(0, max_attempts) assembler calls; every call but the last failed and was swallowed; the first success is returned at once; None means every allowed attempt failed (no call at all when max_attempts <= 0) |
| GenericCodesGenerator.LettersAreLetters | data_generator_categories/generic_codes_generator.py:33 | `string.ascii_letters` is exactly the 52 ASCII letters |
| GenericCodesGenerator.Alphabet | data_generator_categories/generic_codes_generator.py:29-33 | digits only gives the 10 digits, letters only the 52 letters, and both the digits followed by the letters; a character is in it exactly when its class is enabled |
| GenericCodesGenerator.Choices | data_generator_categories/generic_codes_generator.py:35 | n characters, each from the alphabet |
| GenericCodesGenerator.GenerateCode | data_generator_categories/generic_codes_generator.py:11-35 | an empty length range raises; with valid bounds and a character class the call succeeds; a code is at least min_code_length long; it is at most max_code_length long or else it is "", which a non-positive drawn length gives even when max_code_length < 0; it holds only alphabet characters |
| GenericCodesGenerator.ThreeDigitCodes | data_generator_categories/generic_codes_generator.py:29-35 | min = max = 3 with digits only always gives a three-digit code |
| GenericCodesGenerator.ChoicesReaches | data_generator_categories/generic_codes_generator.py:35 | every string over the alphabet is the outcome of some character draws |
| GenericCodesGenerator.GenerateCodeReaches | data_generator_categories/generic_codes_generator.py:34-35 | every code of an allowed length over the alphabet is produced by some draws |
| GenericCodesGenerator.CodeParamError | data_generator_categories/generic_codes_generator.py:68-79 | no error exactly when a character class is enabled and 1 <= min_code_length <= max_code_length; the checks are taken in source order |
| GenericCodesGenerator.CodeSourceReturns | data_generator_categories/generic_codes_generator.py:81-87 | once validation passes, the partial function never raises and returns the code made from that call's draws |
| GenericCodesGenerator.GenerateCodes | data_generator_categories/generic_codes_generator.py:37-93 | both character classes default to enabled and min_code_length to 1; the code checks come first and in order, then the sampler's checks; past both the call succeeds, and the codes returned are exactly the set the sampler `UniqueData` collects from the code source; they are distinct, 1 to batch_size of them, each with length in [min, max], only alphabet characters, and made by one of the first max_attempts calls |
| DataGenerator.Split | data_generator.py:79 | `split` gives at least one piece and no piece holds the separator |
| DataGenerator.JoinSplit | data_generator.py:79 | joining the pieces of a split gives back the string |
| DataGenerator.SplitJoin | data_generator.py:79 | splitting a join of separator-free pieces gives back the pieces |
| DataGenerator.SplitPieces | data_generator.py:79-81 | without the separator the string is its only piece; with it, the first two pieces are the text before the first separator and the text from there to the next separator or the end |
| DataGenerator.UpperChar | data_generator.py:81 | the k-th letter of `string.ascii_lowercase` becomes the k-th letter of `string.ascii_uppercase`, and a character outside `string.ascii_lowercase` is kept |
| DataGenerator.Upper | data_generator.py:81-83 | upper-casing keeps the length and maps each character |
| DataGenerator.UpperKeepsUnderscores | data_generator.py:81-83 | upper-casing neither adds nor removes an underscore |
| DataGenerator.GetLocale | data_generator.py:69-83 | the result never holds "_"; without "_" it is the code upper-cased; with "_" it is the upper-cased text between the first "_" and the next "_" or the end |
| DataGenerator.GetLocaleExamples | data_generator.py:79-83 | "en_US" gives "US", "it" gives "IT", "en_US_x" gives "US", "en_" gives "" |
| DataGenerator.ColoursGeneratorUnguarded | data_generator.py:28-62 | all ten guarded names are generator attributes, and `colours_generator` is declared but not guarded |
| DataGenerator.AfterSetAttr | data_generator.py:63-67 | an assignment leaves every guarded attribute as it was, binds an unguarded name to the value, and touches no other name |
| DataGenerator.GuardedAttributesKept | data_generator.py:40-67 | after any sequence of assignments every guarded attribute is unchanged, and an unguarded name holds the last value assigned to it |
| DataGenerator.DataGenerator.constructor | data_generator.py:28-38 | a new instance reads the class-level generator registry |
| DataGenerator.DataGenerator.SetAttr | data_generator.py:40-67 | a guarded name raises AttributeError naming it and changes nothing; any other name is stored; the guarded attributes keep their registry values |
| NamesGenerator.FullNames | data_generator_categories/names_generator.py:156-159 | the length is the shorter list's length, and entry i is first[i] + " " + last[i] |
| NamesGenerator.ShuffleList | data_generator_categories/names_generator.py:153-155 | a shuffled list is a permutation of the original |
| NamesGenerator.GenerateFullNames | data_generator_categories/names_generator.py:110-159 | the defaults are 1000000 attempts, a threshold of 50000, the locales en_US and it_IT, and shuffling on; both sub-generations get the same batch parameters and locales; the first error is propagated; otherwise the result pairs the post-shuffle lists position by position, is at most batch_size long, uses only names each sub-call produced, permutes the sub-call lists, and keeps the sub-calls' order when shuffling is off |

## Left out

- The Faker facades are not modelled: the category generators and the other methods of `NamesGenerator`. They build a `Faker` instance and forward one of its providers to the sampler; a provider is an abstract value source here.
- The URL builder of the virtual-addresses generator is not part of this model. It is composed from Faker and `urllib` calls.
- `get_supported_locales` is not modelled: it depends on Faker and its locale table. Only the parser `__get_locale` it calls is modelled.
- `main.py` and the `iGenerator` interface are not part of this model. The first is a console demo; the second has no behaviour.
- Every `print` in the modelled code is left out. It is console output only.
- The IBAN assembler (schwifty's `IBAN.generate`, with its ISO 13616 check digits) is a parameter. No property of its output is claimed. In particular, it is not claimed that a returned IBAN starts with the chosen country code: the code shown does not establish that.
- The country-code whitelist is a given sequence. Its contents are not part of this model.
- Randomness enters as supplied draws. Nothing about uniformity or other distributions is stated.
- Digits are ASCII '0'-'9' only, although Python's `int()` also accepts other Unicode decimal digits. Upper-casing maps ASCII a-z only.
- Assignments at class level, which bypass the instance `__setattr__` guard, are not modelled. `DataGenerator.DataGenerator` keeps only the attributes read on an instance.
- GeneratorsExecutor.GenerateUniqueData: the order of the returned list is left open. Python takes it from the set's iteration order, which this model does not fix.
- ValidCardNumberGenerator.Generate: the card source is a total function of the attempt number. An exception raised by Faker's `credit_card_number` is not modelled.
- NamesGenerator.GenerateFullNames: the two `print` calls that report list lengths are left out.
- NamesGenerator.GenerateFullNames: building `Faker(use_weighting=False, locale=locale)` in `generate_first_names` and `generate_last_names` can raise, for example on an unknown locale, before the sampler's checks run. The model has no such error: each provider is a given value source, so the result can only carry a sampler error.
