/** Small shared vocabulary: optional values, results with an error, the outcome
    of one call to a value source, and facts about sequences used as lists. */
module Common {

  datatype Option<+T> = None | Some(value: T)

  datatype Result<+R, +E> = Success(value: R) | Failure(error: E)

  /** The outcome of one call to a zero-argument value source: it either
      returned a value or raised an exception. */
  datatype Call<+T> = Returned(value: T) | Raised

  /** Python's `string.digits`, `string.ascii_lowercase` and `string.ascii_uppercase`. */
  const Digits: string := "0123456789"
  const AsciiLowercase: string := "abcdefghijklmnopqrstuvwxyz"
  const AsciiUppercase: string := "ABCDEFGHIJKLMNOPQRSTUVWXYZ"

  /** The position of the first occurrence of `c` in `s`. */
  function FirstIndex(s: string, c: char): (i: nat)
    requires c in s
    ensures i < |s| && s[i] == c && c !in s[..i]
  {
    if s[0] == c then 0 else 1 + FirstIndex(s[1..], c)
  }

  /** An ASCII decimal digit. */
  predicate IsDigit(c: char)
  {
    '0' <= c <= '9'
  }

  predicate AllDigits(s: string)
  {
    forall i :: 0 <= i < |s| ==> IsDigit(s[i])
  }

  /** `string.digits` holds exactly the ten decimal digits. */
  lemma DigitsAreDigits()
    ensures |Digits| == 10
    ensures forall c :: c in Digits <==> IsDigit(c)
  {
    forall c | IsDigit(c)
      ensures c in Digits
    {
      assert Digits[c as int - '0' as int] == c;
    }
  }

  /** The two letter tables line up: position k holds the k-th letter of the
      alphabet, lower case in one and upper case in the other. */
  lemma AsciiCaseTables()
    ensures |AsciiLowercase| == 26 && |AsciiUppercase| == 26
    ensures forall k :: 0 <= k < 26 ==> AsciiLowercase[k] as int == 'a' as int + k
    ensures forall k :: 0 <= k < 26 ==> AsciiUppercase[k] as int == 'A' as int + k
  {
  }

  /** The set of elements of a list. */
  function Elements<T>(s: seq<T>): set<T>
  {
    set x | x in s
  }

  /** A list with no element repeated. */
  predicate NoDuplicates<T(==)>(s: seq<T>)
  {
    forall i, j :: 0 <= i < j < |s| ==> s[i] != s[j]
  }

  function Min(a: int, b: int): int
  {
    if a <= b then a else b
  }

  function Max(a: int, b: int): int
  {
    if a <= b then b else a
  }

  /** Python's `list(s)` on a set: every element once, in an order left to the
      implementation. */
  method ToList<T(==)>(s: set<T>) returns (r: seq<T>)
    ensures Elements(r) == s
    ensures NoDuplicates(r)
    ensures |r| == |s|
  {
    r := [];
    var rest := s;
    while rest != {}
      invariant Elements(r) + rest == s
      invariant Elements(r) !! rest
      invariant NoDuplicates(r)
      invariant |r| + |rest| == |s|
      decreases |rest|
    {
      var x :| x in rest;
      r := r + [x];
      rest := rest - {x};
    }
  }
}
