/** `ValidIbanGenerator`: a retry search that assembles an IBAN from a
    whitelisted country code, a random 4-digit bank code and a random 10-digit
    account code.  The assembler (`IBAN.generate` of the schwifty library,
    which computes the check digits) is foreign code: it is a parameter here,
    a total function that either yields the IBAN's string form or fails. */
module ValidIbanGenerator {
  import opened Common
  import PyRandom

  /** The foreign assembler: (country code, bank code, account code) to the
      string form of an IBAN, or None where it raises. */
  type Assembler = (string, string, string) -> Option<string>

  /** The random draws one attempt consumes: the index for `random.choice` of
      the country, and the indices `random.choices` picks for the digits of the
      bank code and of the account code. */
  datatype AttemptDraws = AttemptDraws(country: nat, bank: nat -> nat, account: nat -> nat)

  /** The arguments one attempt hands to the assembler. */
  datatype Candidate = Candidate(country: string, bank: string, account: string)

  /** `__generate_random_digits(length)`: `length` characters, each one of the
      ten digits, the i-th picked by the i-th draw. */
  function RandomDigits(length: nat, picks: nat -> nat): (s: string)
    ensures |s| == length
    ensures AllDigits(s)
  {
    seq(length, (i: nat) => Digits[picks(i) % 10])
  }

  /** The draws that spell out a given digit string. */
  function PicksFor(s: string): nat -> nat
  {
    (i: nat) => if i < |s| && '0' <= s[i] <= '9' then s[i] as int - '0' as int else 0
  }

  /** Any digit string of the requested length can come out of `RandomDigits`. */
  lemma RandomDigitsReaches(s: string)
    requires AllDigits(s)
    ensures RandomDigits(|s|, PicksFor(s)) == s
  {
    forall i | 0 <= i < |s|
      ensures RandomDigits(|s|, PicksFor(s))[i] == s[i]
    {
      var d := s[i] as int - '0' as int;
      assert Digits[d] == s[i] by {
        assert Digits == ['0', '1', '2', '3', '4', '5', '6', '7', '8', '9'];
      }
    }
  }

  /** The arguments of one attempt: the country is drawn by `random.choice`
      outside the `try` (None is its IndexError on an empty whitelist). */
  function MakeCandidate(countryCodes: seq<string>, d: AttemptDraws): (c: Option<Candidate>)
    ensures c.None? <==> |countryCodes| == 0
    ensures c.Some? ==> c.value.country in countryCodes
    ensures c.Some? ==> |c.value.bank| == 4 && AllDigits(c.value.bank)
    ensures c.Some? ==> |c.value.account| == 10 && AllDigits(c.value.account)
  {
    match PyRandom.Choice(countryCodes, d.country)
    case None => None
    case Some(country) => Some(Candidate(country, RandomDigits(4, d.bank), RandomDigits(10, d.account)))
  }

  /** The assembler's answer for attempt `a` (whitelist non-empty). */
  function Assembled(countryCodes: seq<string>, assemble: Assembler, d: AttemptDraws): Option<string>
    requires |countryCodes| > 0
  {
    var c := MakeCandidate(countryCodes, d).value;
    assemble(c.country, c.bank, c.account)
  }

  /** The IndexError of `random.choice` on an empty whitelist. */
  datatype IbanError = EmptyCountryCodes

  /** `generate`: up to max_attempts attempts; an assembler failure is
      swallowed and the next attempt begins; the first success is returned at
      once; after the last failure the result is None.  `calls` counts the
      calls to the assembler. */
  method Generate(countryCodes: seq<string>, assemble: Assembler, draws: nat -> AttemptDraws, maxAttempts: int := 1000000)
    returns (r: Result<Option<string>, IbanError>, ghost calls: nat)
    ensures r.Failure? <==> |countryCodes| == 0 && maxAttempts >= 1
    ensures calls <= Max(0, maxAttempts) && (|countryCodes| == 0 ==> calls == 0)
    ensures forall a :: 0 <= a < calls - 1 ==> Assembled(countryCodes, assemble, draws(a)).None?
    ensures r.Success? && r.value.Some? ==>
              calls >= 1 && Assembled(countryCodes, assemble, draws(calls - 1)) == r.value
    ensures r == Success(None) ==>
              calls == Max(0, maxAttempts) && forall a :: 0 <= a < calls ==> Assembled(countryCodes, assemble, draws(a)).None?
  {
    calls := 0;
    var attempt := 0;
    while attempt < maxAttempts
      invariant 0 <= attempt && calls == attempt && attempt <= Max(0, maxAttempts)
      invariant attempt > 0 ==> |countryCodes| > 0
      invariant forall a :: 0 <= a < calls ==> Assembled(countryCodes, assemble, draws(a)).None?
    {
      var d := draws(attempt);
      var randomCountryCode := PyRandom.Choice(countryCodes, d.country);
      if randomCountryCode.None? {
        return Failure(EmptyCountryCodes), calls;
      }
      var randomBankCode := RandomDigits(4, d.bank);
      var randomAccountNumber := RandomDigits(10, d.account);
      // try:
      var generatedIban := assemble(randomCountryCode.value, randomBankCode, randomAccountNumber);
      calls := calls + 1;
      if generatedIban.Some? {
        return Success(generatedIban), calls;
      }
      // except: pass
      attempt := attempt + 1;
    }
    return Success(None), calls;
  }
}
