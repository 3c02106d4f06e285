/** `DataGenerator`: the locale-code parser `__get_locale` and the write
    guard `__setattr__` that keeps the generator registry fixed. */
module DataGenerator {
  import opened Common

  /** Python's `s.split(sep)`: the maximal pieces between occurrences of `sep`
      (always at least one piece, possibly empty ones). */
  function Split(s: string, sep: char): (parts: seq<string>)
    ensures |parts| >= 1
    ensures forall k :: 0 <= k < |parts| ==> sep !in parts[k]
    decreases |s|
  {
    if sep !in s then [s]
    else
      var i := FirstIndex(s, sep);
      [s[..i]] + Split(s[i + 1..], sep)
  }

  /** `sep.join(parts)`. */
  function Join(parts: seq<string>, sep: char): string
    requires |parts| >= 1
  {
    if |parts| == 1 then parts[0] else parts[0] + [sep] + Join(parts[1..], sep)
  }

  /** Joining the pieces of a split gives back the string. */
  lemma {:induction false} JoinSplit(s: string, sep: char)
    ensures Join(Split(s, sep), sep) == s
    decreases |s|
  {
    if sep in s {
      var i := FirstIndex(s, sep);
      var rest := Split(s[i + 1..], sep);
      var parts := [s[..i]] + rest;
      assert Split(s, sep) == parts;
      assert parts[1..] == rest;
      assert Join(parts, sep) == s[..i] + [sep] + Join(rest, sep);
      JoinSplit(s[i + 1..], sep);
      assert s == s[..i] + [sep] + s[i + 1..];
    }
  }

  /** In a piece followed by the separator, the first separator is the one
      right after the piece. */
  lemma {:induction false} FirstIndexAfterPiece(a: string, sep: char, b: string)
    requires sep !in a
    ensures sep in a + [sep] + b && FirstIndex(a + [sep] + b, sep) == |a|
    decreases |a|
  {
    var s := a + [sep] + b;
    assert s[|a|] == sep;
    if a != [] {
      assert s[1..] == a[1..] + [sep] + b;
      FirstIndexAfterPiece(a[1..], sep, b);
    }
  }

  /** Splitting a join of separator-free pieces gives back the pieces. */
  lemma {:induction false} SplitJoin(parts: seq<string>, sep: char)
    requires |parts| >= 1
    requires forall k :: 0 <= k < |parts| ==> sep !in parts[k]
    ensures Split(Join(parts, sep), sep) == parts
    decreases |parts|
  {
    if |parts| > 1 {
      var s := Join(parts, sep);
      var rest := Join(parts[1..], sep);
      assert s == parts[0] + [sep] + rest;
      FirstIndexAfterPiece(parts[0], sep, rest);
      var i := FirstIndex(s, sep);
      assert s[..i] == parts[0];
      assert s[i + 1..] == rest;
      assert Split(s, sep) == [parts[0]] + Split(rest, sep);
      SplitJoin(parts[1..], sep);
      assert parts == [parts[0]] + parts[1..];
    }
  }

  /** Without the separator the string is its only piece; with it, the first
      two pieces are what precedes the first separator and what runs from
      there to the next separator or the end. */
  lemma SplitPieces(s: string, sep: char)
    ensures sep !in s ==> Split(s, sep) == [s]
    ensures sep in s ==>
              var i := FirstIndex(s, sep);
              var rest := s[i + 1..];
              |Split(s, sep)| >= 2 && Split(s, sep)[0] == s[..i] &&
              Split(s, sep)[1] == if sep in rest then rest[..FirstIndex(rest, sep)] else rest
  {
    if sep in s {
      var rest := s[FirstIndex(s, sep) + 1..];
      assert Split(s, sep) == [s[..FirstIndex(s, sep)]] + Split(rest, sep);
    }
  }

  /** `str.upper` on one character, for ASCII: the k-th lower-case letter
      becomes the k-th upper-case letter, and any other character is kept. */
  function UpperChar(c: char): (u: char)
    ensures forall k :: 0 <= k < |AsciiLowercase| && c == AsciiLowercase[k] ==> u == AsciiUppercase[k]
    ensures c !in AsciiLowercase ==> u == c
  {
    AsciiCaseTables();
    if 'a' <= c <= 'z' then (c as int - 'a' as int + 'A' as int) as char else c
  }

  /** `str.upper`, for ASCII. */
  function Upper(s: string): (u: string)
    ensures |u| == |s|
    ensures forall i :: 0 <= i < |s| ==> u[i] == UpperChar(s[i])
  {
    if s == [] then [] else [UpperChar(s[0])] + Upper(s[1..])
  }

  /** Upper-casing neither creates nor removes an underscore. */
  lemma UpperKeepsUnderscores(s: string)
    ensures '_' in Upper(s) <==> '_' in s
  {
    if '_' in Upper(s) {
      var i :| 0 <= i < |s| && Upper(s)[i] == '_';
      assert s[i] == '_';
    }
    if '_' in s {
      var i :| 0 <= i < |s| && s[i] == '_';
      assert Upper(s)[i] == '_';
    }
  }

  /** `__get_locale`: the country part of a locale code such as "en_US",
      upper-cased; a code without "_" is upper-cased whole. */
  function GetLocale(lc: string): (r: string)
    ensures '_' !in r
    ensures '_' !in lc ==> r == Upper(lc)
    ensures '_' in lc ==>
              var i := FirstIndex(lc, '_');
              var rest := lc[i + 1..];
              r == Upper(if '_' in rest then rest[..FirstIndex(rest, '_')] else rest)
  {
    var loc := Split(lc, '_');
    SplitPieces(lc, '_');
    UpperKeepsUnderscores(loc[0]);
    if |loc| > 1 then
      UpperKeepsUnderscores(loc[1]);
      Upper(loc[1])
    else
      Upper(loc[0])
  }

  lemma GetLocaleExamples()
    ensures GetLocale("en_US") == "US"
    ensures GetLocale("it") == "IT"
    ensures GetLocale("en_US_x") == "US"
    ensures GetLocale("en_") == ""
  {
    LocaleOfEnUs();
    LocaleOfIt();
    LocaleOfEnUsX();
    LocaleOfEn();
  }

  lemma LocaleOfEnUs()
    ensures GetLocale("en_US") == "US"
  {
    assert FirstIndex("en_US", '_') == 2;
    assert "en_US"[3..] == "US";
    assert Upper("US") == "US";
  }

  lemma LocaleOfIt()
    ensures GetLocale("it") == "IT"
  {
    assert Upper("it") == "IT";
  }

  lemma LocaleOfEnUsX()
    ensures GetLocale("en_US_x") == "US"
  {
    assert FirstIndex("en_US_x", '_') == 2;
    assert "en_US_x"[3..] == "US_x";
    assert FirstIndex("US_x", '_') == 2;
    assert "US_x"[..2] == "US";
    assert Upper("US") == "US";
  }

  lemma LocaleOfEn()
    ensures GetLocale("en_") == ""
  {
    assert FirstIndex("en_", '_') == 2;
    assert "en_"[3..] == "";
  }

  /** The generator attributes the class declares, `colours_generator` last. */
  const GeneratorAttributes: seq<string> := [
    "names_generator", "virtual_addresses_generator", "date_times_generator",
    "physical_addresses_generator", "bank_codes_generator", "vat_codes_generator",
    "social_security_numbers_generator", "phone_numbers_generator",
    "generic_codes_generator", "text_generator", "colours_generator"]

  /** The list `immutable_attributes` of `__setattr__`. */
  const ImmutableAttributes: seq<string> := [
    "names_generator", "virtual_addresses_generator", "date_times_generator",
    "physical_addresses_generator", "bank_codes_generator", "vat_codes_generator",
    "social_security_numbers_generator", "phone_numbers_generator",
    "generic_codes_generator", "text_generator"]

  /** Ten of the eleven generator attributes are guarded: `colours_generator`
      is not in the list. */
  lemma ColoursGeneratorUnguarded()
    ensures |ImmutableAttributes| == 10
    ensures forall n :: n in ImmutableAttributes ==> n in GeneratorAttributes
    ensures "colours_generator" in GeneratorAttributes && "colours_generator" !in ImmutableAttributes
  {
    assert GeneratorAttributes == ImmutableAttributes + ["colours_generator"];
  }

  datatype AttributeError = AttributeError(name: string)

  /** The visible attributes after `setattr(self, name, value)`. */
  function AfterSetAttr<V>(attrs: map<string, V>, name: string, value: V): (r: map<string, V>)
    ensures forall n :: n in ImmutableAttributes ==> (n in r <==> n in attrs) && (n in attrs ==> r[n] == attrs[n])
    ensures name !in ImmutableAttributes ==> name in r && r[name] == value
    ensures forall n :: n != name ==> (n in r <==> n in attrs) && (n in attrs ==> r[n] == attrs[n])
  {
    if name in ImmutableAttributes then attrs else attrs[name := value]
  }

  /** The visible attributes after a sequence of assignments. */
  function AfterWrites<V>(attrs: map<string, V>, writes: seq<(string, V)>): map<string, V>
    decreases |writes|
  {
    if writes == [] then attrs
    else AfterWrites(AfterSetAttr(attrs, writes[0].0, writes[0].1), writes[1..])
  }

  /** No sequence of assignments through the guard changes a guarded attribute;
      the last assignment to an unguarded name is what it holds afterwards. */
  lemma {:induction false} GuardedAttributesKept<V>(attrs: map<string, V>, writes: seq<(string, V)>, n: string)
    ensures n in ImmutableAttributes ==>
              (n in AfterWrites(attrs, writes) <==> n in attrs) &&
              (n in attrs ==> AfterWrites(attrs, writes)[n] == attrs[n])
    ensures n !in ImmutableAttributes && writes != [] && writes[|writes| - 1].0 == n ==>
              n in AfterWrites(attrs, writes) && AfterWrites(attrs, writes)[n] == writes[|writes| - 1].1
    decreases |writes|
  {
    if writes != [] {
      GuardedAttributesKept(AfterSetAttr(attrs, writes[0].0, writes[0].1), writes[1..], n);
      if |writes| == 1 {
        assert AfterWrites(AfterSetAttr(attrs, writes[0].0, writes[0].1), writes[1..])
            == AfterSetAttr(attrs, writes[0].0, writes[0].1);
      } else {
        assert writes[1..][|writes[1..]| - 1] == writes[|writes| - 1];
      }
    }
  }

  /** A `DataGenerator` instance, reduced to the attributes one reads on it:
      the class-level generator registry unless an instance assignment
      rebound the name. */
  class DataGenerator<V> {
    const registry: map<string, V>
    var attributes: map<string, V>

    /** The guarded attributes still read as the registry has them. */
    ghost predicate Valid()
      reads this
    {
      forall n :: n in ImmutableAttributes ==>
        (n in attributes <==> n in registry) && (n in registry ==> attributes[n] == registry[n])
    }

    constructor (registry: map<string, V>)
      ensures Valid()
      ensures this.registry == registry && attributes == registry
    {
      this.registry := registry;
      attributes := registry;
    }

    /** `__setattr__`: a guarded name raises AttributeError and nothing
        changes; any other name is bound to the value. */
    method SetAttr(name: string, value: V) returns (error: Option<AttributeError>)
      requires Valid()
      modifies this
      ensures Valid()
      ensures error.Some? <==> name in ImmutableAttributes
      ensures error.Some? ==> error.value == AttributeError(name) && attributes == old(attributes)
      ensures attributes == AfterSetAttr(old(attributes), name, value)
    {
      if name in ImmutableAttributes {
        return Some(AttributeError(name));
      }
      attributes := attributes[name := value];
      return None;
    }
  }
}
