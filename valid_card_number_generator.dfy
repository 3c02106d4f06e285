/** `ValidCardNumberGenerator`: the Luhn mod-10 check of ISO/IEC 7812-1
    (Annex B) and the bounded search for a card number that passes it. */
module ValidCardNumberGenerator {
  import opened Common

  function DigitValue(c: char): (d: int)
    requires IsDigit(c)
    ensures 0 <= d <= 9
  {
    c as int - '0' as int
  }

  function DigitChar(d: int): (c: char)
    requires 0 <= d <= 9
    ensures IsDigit(c) && DigitValue(c) == d
  {
    ('0' as int + d) as char
  }

  /** What one digit adds to the Luhn sum: a doubled digit above 9 loses 9, so
      every contribution of a digit is again a single digit. */
  function Contribution(d: int, doubled: bool): (r: int)
    ensures 0 <= d <= 9 ==> 0 <= r <= 9
    ensures !doubled ==> r == d
    ensures doubled && 0 <= d <= 9 ==> r % 9 == (2 * d) % 9 && (r == 0 <==> d == 0)
  {
    if !doubled then d
    else if 2 * d > 9 then 2 * d - 9
    else 2 * d
  }

  /** The digit values of an all-digit string, `[int(d) for d in s]`. */
  function DigitsOf(s: string): (ds: seq<int>)
    requires AllDigits(s)
    ensures |ds| == |s|
    ensures forall j :: 0 <= j < |s| ==> ds[j] == DigitValue(s[j]) && 0 <= ds[j] <= 9
    ensures forall j :: 0 <= j < |s| ==> DigitChar(ds[j]) == s[j]
  {
    seq(|s|, j requires 0 <= j < |s| => DigitValue(s[j]))
  }

  /** The Luhn sum of a digit list, read from the right-hand end as the
      standard states it: the last digit is doubled when `doubledLast` holds
      and the doubling then alternates leftwards.  A card number's sum is
      `LuhnSum(digits, false)`. */
  function LuhnSum(ds: seq<int>, doubledLast: bool): int
    decreases |ds|
  {
    if ds == [] then 0
    else LuhnSum(ds[..|ds| - 1], !doubledLast) + Contribution(ds[|ds| - 1], doubledLast)
  }

  /** A string passes the Luhn check: it is all digits and its sum is a
      multiple of ten. */
  predicate IsLuhnValid(s: string)
  {
    AllDigits(s) && LuhnSum(DigitsOf(s), false) % 10 == 0
  }

  /** The contribution of each position, left to right, with position j doubled
      exactly when it stands an odd number of places left of the last digit
      (an even number, for `doubledLast`). */
  function Contributions(ds: seq<int>, doubledLast: bool): (r: seq<int>)
    ensures |r| == |ds|
  {
    seq(|ds|, j requires 0 <= j < |ds| => Contribution(ds[j], ((|ds| - 1 - j) % 2 == 1) != doubledLast))
  }

  /** The sum of a list, adding from the left as `sum` does. */
  function Sum(xs: seq<int>): int
  {
    if xs == [] then 0 else Sum(xs[..|xs| - 1]) + xs[|xs| - 1]
  }

  /** The position-wise description and the right-to-left one agree. */
  lemma {:induction false} SumOfContributions(ds: seq<int>, doubledLast: bool)
    ensures Sum(Contributions(ds, doubledLast)) == LuhnSum(ds, doubledLast)
    decreases |ds|
  {
    if ds != [] {
      var p := ds[..|ds| - 1];
      var w := Contributions(ds, doubledLast);
      assert w[..|p|] == Contributions(p, !doubledLast) by {
        forall j | 0 <= j < |p|
          ensures w[..|p|][j] == Contributions(p, !doubledLast)[j]
        {
          var n := |p| - 1 - j;
          assert |ds| - 1 - j == n + 1;
          assert (n + 1) % 2 == 1 <==> n % 2 != 1;
        }
      }
      assert w[|p|] == Contribution(ds[|p|], doubledLast);
      assert Sum(w) == Sum(w[..|p|]) + w[|p|];
      SumOfContributions(p, !doubledLast);
    }
  }

  /** `[int(d) for d in s]`, or None when some character is not a digit
      (the `except` that answers False). */
  method ParseDigits(s: string) returns (digits: Option<array<int>>)
    ensures digits.None? <==> !AllDigits(s)
    ensures digits.Some? ==> fresh(digits.value) && digits.value[..] == DigitsOf(s)
  {
    var a := new int[|s|];
    var k := 0;
    while k < |s|
      invariant 0 <= k <= |s|
      invariant forall j :: 0 <= j < k ==> IsDigit(s[j]) && a[j] == DigitValue(s[j])
    {
      if !IsDigit(s[k]) {
        return None;
      }
      a[k] := DigitValue(s[k]);
      k := k + 1;
    }
    return Some(a);
  }

  /** The doubling pass of `luhn_checksum`, in place: positions len-2, len-4,
      ... down to 0 are doubled, and 9 is taken off a doubled value above 9. */
  method DoubleAlternate(digits: array<int>)
    modifies digits
    ensures digits[..] == Contributions(old(digits[..]), false)
  {
    var n := digits.Length;
    var i := n - 2;
    while i >= 0
      invariant -2 <= i <= n - 2 && (n - i) % 2 == 0
      invariant forall j :: 0 <= j < n ==>
                  digits[j] == Contribution(old(digits[j]), j > i && (n - 1 - j) % 2 == 1)
    {
      digits[i] := digits[i] * 2;
      if digits[i] > 9 {
        digits[i] := digits[i] - 9;
      }
      i := i - 2;
    }
  }

  /** `sum(digits)`. */
  method SumOf(digits: array<int>) returns (total: int)
    ensures total == Sum(digits[..])
  {
    total := 0;
    for j := 0 to digits.Length
      invariant total == Sum(digits[..j])
    {
      assert digits[..j + 1][..j] == digits[..j];
      total := total + digits[j];
    }
    assert digits[..digits.Length] == digits[..];
  }

  /** `luhn_checksum`: any non-digit answers False; otherwise the doubled
      digit list is summed and the sum is compared with 0 modulo 10. */
  method LuhnChecksum(cardNumber: string) returns (valid: bool)
    ensures valid == IsLuhnValid(cardNumber)
  {
    var parsed := ParseDigits(cardNumber);
    if parsed.None? {
      return false;
    }
    var digits := parsed.value;
    DoubleAlternate(digits);
    var checksum := SumOf(digits);
    SumOfContributions(DigitsOf(cardNumber), false);
    return checksum % 10 == 0;
  }

  /** The last digit is never doubled: it adds itself to the sum of the rest,
      which is read with doubling starting at the second-to-last digit. */
  lemma LastDigitUndoubled(prefix: string, c: char)
    requires AllDigits(prefix) && IsDigit(c)
    ensures AllDigits(prefix + [c])
    ensures LuhnSum(DigitsOf(prefix + [c]), false) == LuhnSum(DigitsOf(prefix), true) + DigitValue(c)
  {
    assert DigitsOf(prefix + [c])[..|prefix|] == DigitsOf(prefix);
  }

  /** The check digit that completes a digit prefix. */
  function CheckDigit(prefix: string): char
    requires AllDigits(prefix)
  {
    DigitChar((10 - LuhnSum(DigitsOf(prefix), true) % 10) % 10)
  }

  /** For every digit prefix exactly one final digit makes the number pass. */
  lemma CheckDigitUnique(prefix: string, c: char)
    requires AllDigits(prefix) && IsDigit(c)
    ensures IsLuhnValid(prefix + [CheckDigit(prefix)])
    ensures IsLuhnValid(prefix + [c]) <==> c == CheckDigit(prefix)
  {
    LastDigitUndoubled(prefix, CheckDigit(prefix));
    LastDigitUndoubled(prefix, c);
    CheckDigitArithmetic(LuhnSum(DigitsOf(prefix), true), DigitValue(c));
    assert c == DigitChar(DigitValue(c));
  }

  /** The digit k = (10 - sum % 10) % 10 is the only one that brings `sum`
      to a multiple of ten. */
  lemma CheckDigitArithmetic(sum: int, v: int)
    requires 0 <= v <= 9
    ensures var k := (10 - sum % 10) % 10;
            0 <= k <= 9 && (sum + k) % 10 == 0 && ((sum + v) % 10 == 0 <==> v == k)
  {
    var r := sum % 10;
    assert sum == 10 * (sum / 10) + r && 0 <= r < 10;
  }

  /** A string with a non-digit character fails the check, whatever else it holds. */
  lemma NonDigitFails(s: string, i: nat)
    requires i < |s| && !IsDigit(s[i])
    ensures !IsLuhnValid(s)
  {
  }

  /** The empty string passes: it has no digits and its sum is 0. */
  lemma EmptyPasses()
    ensures IsLuhnValid("")
  {
  }

  /** One step of the right-to-left reading, taken on a prefix: the first
      k + 1 digits add digit k to the sum of the first k. */
  lemma LuhnSumPrefix(ds: seq<int>, k: nat, doubledLast: bool)
    requires k < |ds|
    ensures LuhnSum(ds[..k + 1], doubledLast) == LuhnSum(ds[..k], !doubledLast) + Contribution(ds[k], doubledLast)
  {
    assert ds[..k + 1][..k] == ds[..k];
  }

  /** The two worked examples.  Each proof lists the running Luhn sum of the
      digit list, one digit longer at each step. */
  lemma ExampleValid()
    ensures IsLuhnValid("4539148803436467") && LuhnSum(DigitsOf("4539148803436467"), false) == 80
  {
    assert DigitsOf("4539148803436467") == [4, 5, 3, 9, 1, 4, 8, 8, 0, 3, 4, 3, 6, 4, 6, 7];
    ExampleValidSum();
  }

  lemma ExampleValidSum()
    ensures LuhnSum([4, 5, 3, 9, 1, 4, 8, 8, 0, 3, 4, 3, 6, 4, 6, 7], false) == 80
  {
    var ds: seq<int> := [4, 5, 3, 9, 1, 4, 8, 8, 0, 3, 4, 3, 6, 4, 6, 7];
    assert ds[..0] == [];
    LuhnSumPrefix(ds, 0, true);
    assert LuhnSum(ds[..1], true) == 8;
    LuhnSumPrefix(ds, 1, false);
    assert LuhnSum(ds[..2], false) == 13;
    LuhnSumPrefix(ds, 2, true);
    assert LuhnSum(ds[..3], true) == 19;
    LuhnSumPrefix(ds, 3, false);
    assert LuhnSum(ds[..4], false) == 28;
    LuhnSumPrefix(ds, 4, true);
    assert LuhnSum(ds[..5], true) == 30;
    LuhnSumPrefix(ds, 5, false);
    assert LuhnSum(ds[..6], false) == 34;
    LuhnSumPrefix(ds, 6, true);
    assert LuhnSum(ds[..7], true) == 41;
    LuhnSumPrefix(ds, 7, false);
    assert LuhnSum(ds[..8], false) == 49;
    LuhnSumPrefix(ds, 8, true);
    assert LuhnSum(ds[..9], true) == 49;
    LuhnSumPrefix(ds, 9, false);
    assert LuhnSum(ds[..10], false) == 52;
    LuhnSumPrefix(ds, 10, true);
    assert LuhnSum(ds[..11], true) == 60;
    LuhnSumPrefix(ds, 11, false);
    assert LuhnSum(ds[..12], false) == 63;
    LuhnSumPrefix(ds, 12, true);
    assert LuhnSum(ds[..13], true) == 66;
    LuhnSumPrefix(ds, 13, false);
    assert LuhnSum(ds[..14], false) == 70;
    LuhnSumPrefix(ds, 14, true);
    assert LuhnSum(ds[..15], true) == 73;
    LuhnSumPrefix(ds, 15, false);
    assert LuhnSum(ds[..16], false) == 80;
    assert ds[..16] == ds;
  }

  lemma ExampleInvalid()
    ensures !IsLuhnValid("1234567812345678") && LuhnSum(DigitsOf("1234567812345678"), false) == 68
  {
    assert DigitsOf("1234567812345678") == [1, 2, 3, 4, 5, 6, 7, 8, 1, 2, 3, 4, 5, 6, 7, 8];
    ExampleInvalidSum();
  }

  lemma ExampleInvalidSum()
    ensures LuhnSum([1, 2, 3, 4, 5, 6, 7, 8, 1, 2, 3, 4, 5, 6, 7, 8], false) == 68
  {
    var ds: seq<int> := [1, 2, 3, 4, 5, 6, 7, 8, 1, 2, 3, 4, 5, 6, 7, 8];
    assert ds[..0] == [];
    LuhnSumPrefix(ds, 0, true);
    assert LuhnSum(ds[..1], true) == 2;
    LuhnSumPrefix(ds, 1, false);
    assert LuhnSum(ds[..2], false) == 4;
    LuhnSumPrefix(ds, 2, true);
    assert LuhnSum(ds[..3], true) == 10;
    LuhnSumPrefix(ds, 3, false);
    assert LuhnSum(ds[..4], false) == 14;
    LuhnSumPrefix(ds, 4, true);
    assert LuhnSum(ds[..5], true) == 15;
    LuhnSumPrefix(ds, 5, false);
    assert LuhnSum(ds[..6], false) == 21;
    LuhnSumPrefix(ds, 6, true);
    assert LuhnSum(ds[..7], true) == 26;
    LuhnSumPrefix(ds, 7, false);
    assert LuhnSum(ds[..8], false) == 34;
    LuhnSumPrefix(ds, 8, true);
    assert LuhnSum(ds[..9], true) == 36;
    LuhnSumPrefix(ds, 9, false);
    assert LuhnSum(ds[..10], false) == 38;
    LuhnSumPrefix(ds, 10, true);
    assert LuhnSum(ds[..11], true) == 44;
    LuhnSumPrefix(ds, 11, false);
    assert LuhnSum(ds[..12], false) == 48;
    LuhnSumPrefix(ds, 12, true);
    assert LuhnSum(ds[..13], true) == 49;
    LuhnSumPrefix(ds, 13, false);
    assert LuhnSum(ds[..14], false) == 55;
    LuhnSumPrefix(ds, 14, true);
    assert LuhnSum(ds[..15], true) == 60;
    LuhnSumPrefix(ds, 15, false);
    assert LuhnSum(ds[..16], false) == 68;
    assert ds[..16] == ds;
  }

  /** The index of the first of the attempts `from`, ..., max_attempts - 1
      whose candidate passes the check, if any. */
  function FirstPassing(source: nat -> string, from: nat, maxAttempts: int): Option<nat>
    decreases maxAttempts - from
  {
    if from >= maxAttempts then None
    else if IsLuhnValid(source(from)) then Some(from)
    else FirstPassing(source, from + 1, maxAttempts)
  }

  /** `FirstPassing` finds the earliest passing attempt and answers None only
      when every attempt in the range fails. */
  lemma {:induction false} FirstPassingIsFirst(source: nat -> string, from: nat, maxAttempts: int)
    ensures var r := FirstPassing(source, from, maxAttempts);
            && (r.Some? ==> from <= r.value < maxAttempts && IsLuhnValid(source(r.value))
                            && forall j :: from <= j < r.value ==> !IsLuhnValid(source(j)))
            && (r.None? ==> forall j :: from <= j < maxAttempts ==> !IsLuhnValid(source(j)))
    decreases maxAttempts - from
  {
    if from < maxAttempts && !IsLuhnValid(source(from)) {
      FirstPassingIsFirst(source, from + 1, maxAttempts);
    }
  }

  /** `generate`: draw up to max_attempts card numbers from the source (the
      j-th draw is `source(j)`) and return the first that passes the check,
      or None. */
  method Generate(source: nat -> string, maxAttempts: int := 1000000) returns (card: Option<string>)
    ensures card == match FirstPassing(source, 0, maxAttempts)
                    case None => None
                    case Some(j) => Some(source(j))
    ensures card.Some? ==> IsLuhnValid(card.value)
    ensures maxAttempts <= 0 ==> card.None?
  {
    FirstPassingIsFirst(source, 0, maxAttempts);
    var attempt := 0;
    while attempt < maxAttempts
      invariant 0 <= attempt
      invariant FirstPassing(source, attempt, maxAttempts) == FirstPassing(source, 0, maxAttempts)
    {
      var cardNumber := source(attempt);
      var ok := LuhnChecksum(cardNumber);
      if ok {
        return Some(cardNumber);
      }
      attempt := attempt + 1;
    }
    return None;
  }
}
