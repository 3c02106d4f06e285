/** `GenericCodesGenerator`: random codes over digits and/or ASCII letters of
    a length between two bounds, validated and then fed to the sampler. */
module GenericCodesGenerator {
  import opened Common
  import PyRandom
  import GE = GeneratorsExecutor

  /** Python's `string.ascii_letters`. */
  const AsciiLetters: string := AsciiLowercase + AsciiUppercase

  predicate IsAsciiLetter(c: char)
  {
    'a' <= c <= 'z' || 'A' <= c <= 'Z'
  }

  lemma LettersAreLetters()
    ensures |AsciiLetters| == 52
    ensures forall c :: c in AsciiLetters <==> IsAsciiLetter(c)
  {
    forall c | 'a' <= c <= 'z'
      ensures c in AsciiLowercase
    {
      assert AsciiLowercase[c as int - 'a' as int] == c;
    }
    forall c | 'A' <= c <= 'Z'
      ensures c in AsciiUppercase
    {
      assert AsciiUppercase[c as int - 'A' as int] == c;
    }
  }

  /** The `characters` string of `__generate_code`: digits first when
      included, then the letters when included. */
  function Alphabet(includeDigits: bool, includeCharacters: bool): (r: string)
    ensures includeDigits && !includeCharacters ==> r == Digits
    ensures !includeDigits && includeCharacters ==> r == AsciiLetters
    ensures includeDigits && includeCharacters ==> r == Digits + AsciiLetters
    ensures |r| == (if includeDigits then 10 else 0) + (if includeCharacters then 52 else 0)
    ensures forall c :: c in r <==> (includeDigits && IsDigit(c)) || (includeCharacters && IsAsciiLetter(c))
  {
    DigitsAreDigits();
    LettersAreLetters();
    var characters := "";
    var characters := if includeDigits then characters + Digits else characters;
    var characters := if includeCharacters then characters + AsciiLetters else characters;
    characters
  }

  /** The random draws one code consumes: the one for `random.randint` of the
      length and one `random.choice` draw per character. */
  datatype CodeDraws = CodeDraws(length: nat, chars: nat -> nat)

  /** What `__generate_code` raises on its own: the ValueError of `randint` on
      an empty length range, the IndexError of `choice` on an empty alphabet. */
  datatype RandomError = EmptyLengthRange | EmptyAlphabet

  /** `__generate_code`. */
  function GenerateCode(maxCodeLength: int, minCodeLength: int, includeDigits: bool, includeCharacters: bool,
                        d: CodeDraws): (r: Result<string, RandomError>)
    ensures minCodeLength > maxCodeLength ==> r == Failure(EmptyLengthRange)
    ensures 1 <= minCodeLength <= maxCodeLength && (includeDigits || includeCharacters) ==> r.Success?
    ensures r.Failure? ==> minCodeLength > maxCodeLength || (!includeDigits && !includeCharacters)
    ensures r.Success? ==> minCodeLength <= |r.value| && (|r.value| <= maxCodeLength || r.value == "")
    ensures r.Success? ==> forall c :: c in r.value ==> c in Alphabet(includeDigits, includeCharacters)
  {
    var characters := Alphabet(includeDigits, includeCharacters);
    match PyRandom.Randint(minCodeLength, maxCodeLength, d.length)
    case None => Failure(EmptyLengthRange)
    case Some(randomLength) =>
      if randomLength <= 0 then Success("")
      else if |characters| == 0 then Failure(EmptyAlphabet)
      else Success(Choices(characters, randomLength, d.chars))
  }

  /** `"".join(random.choice(characters) for _ in range(n))`. */
  function Choices(characters: string, n: nat, picks: nat -> nat): (r: string)
    requires |characters| > 0
    ensures |r| == n
    ensures forall i :: 0 <= i < n ==> r[i] in characters
  {
    assert forall i: nat :: PyRandom.Choice(characters, picks(i)).value in characters;
    seq(n, (i: nat) requires i < n => PyRandom.Choice(characters, picks(i)).value)
  }

  /** min = max = 3 with digits only: every code is three digits long. */
  lemma ThreeDigitCodes(d: CodeDraws)
    ensures var r := GenerateCode(3, 3, true, false, d);
            r.Success? && |r.value| == 3 && forall c :: c in r.value ==> IsDigit(c)
  {
  }

  /** The per-character draws that spell a given code. */
  function PicksFor(code: string, alphabet: string): nat -> nat
  {
    (i: nat) => if i < |code| && code[i] in alphabet then FirstIndex(alphabet, code[i]) else 0
  }

  lemma ChoicesReaches(alphabet: string, code: string)
    requires |alphabet| > 0
    requires forall i :: 0 <= i < |code| ==> code[i] in alphabet
    ensures Choices(alphabet, |code|, PicksFor(code, alphabet)) == code
  {
    var r := Choices(alphabet, |code|, PicksFor(code, alphabet));
    forall i | 0 <= i < |code|
      ensures r[i] == code[i]
    {
      var k := FirstIndex(alphabet, code[i]);
      assert PicksFor(code, alphabet)(i) == k;
      PyRandom.ChoiceReaches(alphabet, k);
    }
  }

  /** Every code the contract of `GenerateCode` admits is produced by some draws:
      any length in the range and any characters of the alphabet. */
  lemma GenerateCodeReaches(maxCodeLength: int, minCodeLength: int, includeDigits: bool, includeCharacters: bool,
                            code: string)
    requires 1 <= minCodeLength <= |code| <= maxCodeLength
    requires forall c :: c in code ==> c in Alphabet(includeDigits, includeCharacters)
    ensures var alphabet := Alphabet(includeDigits, includeCharacters);
            GenerateCode(maxCodeLength, minCodeLength, includeDigits, includeCharacters,
                         CodeDraws((|code| - minCodeLength) as nat, PicksFor(code, alphabet))) == Success(code)
  {
    var alphabet := Alphabet(includeDigits, includeCharacters);
    PyRandom.RandintReaches(minCodeLength, maxCodeLength, |code|);
    assert code[0] in alphabet;
    ChoicesReaches(alphabet, code);
  }

  /** The three checks of `generate_codes`, in source order. */
  datatype CodeCheck = NoCharacterClass | MaxBelowMin | MinBelowOne

  function CodeParamError(maxCodeLength: int, includeDigits: bool, includeCharacters: bool, minCodeLength: int): (e: Option<CodeCheck>)
    ensures e == None <==> (includeDigits || includeCharacters) && 1 <= minCodeLength <= maxCodeLength
  {
    if !includeDigits && !includeCharacters then Some(NoCharacterClass)
    else if maxCodeLength < minCodeLength then Some(MaxBelowMin)
    else if minCodeLength < 1 then Some(MinBelowOne)
    else None
  }

  datatype CodesError = InvalidCode(code: CodeCheck) | InvalidBatch(batch: GE.SamplerError)

  /** The partial function `generate_codes` hands to the sampler: call i makes
      a code from the i-th draws, and an exception of `__generate_code` is a
      raising call. */
  function CodeSource(maxCodeLength: int, minCodeLength: int, includeDigits: bool, includeCharacters: bool,
                      draws: nat -> CodeDraws): nat -> Call<string>
  {
    (i: nat) =>
      match GenerateCode(maxCodeLength, minCodeLength, includeDigits, includeCharacters, draws(i))
      case Success(code) => Returned(code)
      case Failure(_) => Raised
  }

  /** Past the code checks the source never raises, and what it returns is
      the code `GenerateCode` makes from the same draws. */
  lemma CodeSourceReturns(maxCodeLength: int, minCodeLength: int, includeDigits: bool, includeCharacters: bool,
                          draws: nat -> CodeDraws, i: nat)
    requires CodeParamError(maxCodeLength, includeDigits, includeCharacters, minCodeLength).None?
    ensures var c := CodeSource(maxCodeLength, minCodeLength, includeDigits, includeCharacters, draws)(i);
            var g := GenerateCode(maxCodeLength, minCodeLength, includeDigits, includeCharacters, draws(i));
            c.Returned? && g.Success? && c.value == g.value
  {
  }

  /** `generate_codes`: the code checks, then the sampler (whose own checks
      follow), on the source of codes. */
  method GenerateCodes(batchSize: int, maxAttempts: int, maxIterationsWithoutChange: int, maxCodeLength: int,
                       includeDigits: bool := true, includeCharacters: bool := true, minCodeLength: int := 1,
                       draws: nat -> CodeDraws)
    returns (r: Result<seq<string>, CodesError>)
    ensures CodeParamError(maxCodeLength, includeDigits, includeCharacters, minCodeLength).Some? ==>
              r == Failure(InvalidCode(CodeParamError(maxCodeLength, includeDigits, includeCharacters, minCodeLength).value))
    ensures CodeParamError(maxCodeLength, includeDigits, includeCharacters, minCodeLength).None? ==>
              match GE.ParameterError(batchSize, maxAttempts, maxIterationsWithoutChange)
              case Some(e) => r == Failure(InvalidBatch(e))
              case None => r.Success?
    ensures r.Success? ==>
              var u := GE.UniqueData(CodeSource(maxCodeLength, minCodeLength, includeDigits, includeCharacters, draws),
                                     batchSize, maxAttempts, maxIterationsWithoutChange);
              u.Success? && Elements(r.value) == u.value.seen
    ensures r.Success? ==> NoDuplicates(r.value) && 0 < |r.value| <= batchSize
    ensures r.Success? ==> forall code :: code in r.value ==>
              && minCodeLength <= |code| <= maxCodeLength
              && forall c :: c in code ==> c in Alphabet(includeDigits, includeCharacters)
    ensures r.Success? ==> forall code :: code in r.value ==>
              exists i :: 0 <= i < maxAttempts &&
                GenerateCode(maxCodeLength, minCodeLength, includeDigits, includeCharacters, draws(i)) == Success(code)
  {
    if !includeDigits && !includeCharacters {
      return Failure(InvalidCode(NoCharacterClass));
    }
    if maxCodeLength < minCodeLength {
      return Failure(InvalidCode(MaxBelowMin));
    }
    if minCodeLength < 1 {
      return Failure(InvalidCode(MinBelowOne));
    }
    var source := CodeSource(maxCodeLength, minCodeLength, includeDigits, includeCharacters, draws);
    var sampled := GE.GenerateUniqueData(source, batchSize, maxAttempts, maxIterationsWithoutChange);
    if GE.ParameterError(batchSize, maxAttempts, maxIterationsWithoutChange).None? {
      CodeSourceReturns(maxCodeLength, minCodeLength, includeDigits, includeCharacters, draws, 0);
      GE.FirstCallRaises(source, batchSize, maxAttempts, maxIterationsWithoutChange);
    }
    match sampled {
      case Failure(e) => return Failure(InvalidBatch(e));
      case Success(codes) =>
        forall code | code in codes
          ensures exists i :: 0 <= i < maxAttempts &&
                    GenerateCode(maxCodeLength, minCodeLength, includeDigits, includeCharacters, draws(i)) == Success(code)
          ensures minCodeLength <= |code| <= maxCodeLength
          ensures forall c :: c in code ==> c in Alphabet(includeDigits, includeCharacters)
        {
          var i :| 0 <= i < maxAttempts && source(i) == Returned(code);
          CodeSourceReturns(maxCodeLength, minCodeLength, includeDigits, includeCharacters, draws, i);
        }
        return Success(codes);
    }
  }
}
