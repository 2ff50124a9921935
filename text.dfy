/**
 * Character classes, lower-casing, counting and decimal numerals, shared by the
 * time-string and data-size parsers. Only ASCII is modelled: Python's
 * str.isdigit/isalpha/isspace/lower also accept other Unicode characters.
 */
module Text {
  import opened Results

  predicate IsDigit(c: char) { '0' <= c <= '9' }

  predicate IsUpper(c: char) { 'A' <= c <= 'Z' }

  predicate IsLower(c: char) { 'a' <= c <= 'z' }

  predicate IsAlpha(c: char) { IsUpper(c) || IsLower(c) }

  /** str.isspace on ASCII: space, \t \n \v \f \r and the separators 0x1c-0x1f. */
  predicate IsSpace(c: char) { c == ' ' || 9 <= c as int <= 13 || 28 <= c as int <= 31 }

  function LowerChar(c: char): (r: char)
    ensures IsUpper(c) ==> r as int == c as int + 32 && IsLower(r)
    ensures !IsUpper(c) ==> r == c
  {
    if IsUpper(c) then (c as int + 32) as char else c
  }

  /** str.lower, character by character. */
  function Lower(s: string): (r: string)
    ensures |r| == |s|
    ensures forall i :: 0 <= i < |s| ==> r[i] == LowerChar(s[i])
  {
    seq(|s|, i requires 0 <= i < |s| => LowerChar(s[i]))
  }

  lemma {:induction false} LowerAppend(a: string, b: string)
    ensures Lower(a + b) == Lower(a) + Lower(b)
  {
    assert forall i :: 0 <= i < |a + b| ==> Lower(a + b)[i] == (Lower(a) + Lower(b))[i];
  }

  lemma {:induction false} LowerIdempotent(s: string)
    ensures Lower(Lower(s)) == Lower(s)
  {
  }

  /** The number of occurrences of c in s (str.count for one character). */
  function Count(s: string, c: char): (n: nat)
    ensures n <= |s|
    ensures n == 0 <==> forall i :: 0 <= i < |s| ==> s[i] != c
  {
    if s == [] then 0 else (if s[0] == c then 1 else 0) + Count(s[1..], c)
  }

  lemma {:induction false} CountAppend(a: string, b: string, c: char)
    ensures Count(a + b, c) == Count(a, c) + Count(b, c)
  {
    if a != [] {
      assert (a + b)[1..] == a[1..] + b;
      CountAppend(a[1..], b, c);
    } else {
      assert a + b == b;
    }
  }

  /** Lower-casing never creates or removes a colon-like non-letter character. */
  lemma {:induction false} CountLower(s: string, c: char)
    requires !IsUpper(c) && !IsLower(c)
    ensures Count(Lower(s), c) == Count(s, c)
  {
    if s != [] {
      assert Lower(s)[1..] == Lower(s[1..]);
      CountLower(s[1..], c);
    }
  }

  function DigitValue(c: char): (d: nat)
    ensures d < 10
  {
    if IsDigit(c) then c as int - '0' as int else 0
  }

  function DigitChar(d: nat): (c: char)
    requires d < 10
    ensures IsDigit(c) && DigitValue(c) == d
  {
    ('0' as int + d) as char
  }

  predicate AllDigits(s: string) { forall i :: 0 <= i < |s| ==> IsDigit(s[i]) }

  /** The value of a string of decimal digits, most significant first. */
  function DigitsValue(s: string): nat
  {
    DigitsFrom(s, 0)
  }

  /** Horner's rule: the digits of s appended to the number acc. */
  function DigitsFrom(s: string, acc: nat): nat
  {
    if s == [] then acc else DigitsFrom(s[1..], acc * 10 + DigitValue(s[0]))
  }

  lemma {:induction false} DigitsFromSnoc(s: string, c: char, acc: nat)
    ensures DigitsFrom(s + [c], acc) == DigitsFrom(s, acc) * 10 + DigitValue(c)
  {
    if s == [] {
      assert ([] + [c])[1..] == [];
    } else {
      assert (s + [c])[0] == s[0] && (s + [c])[1..] == s[1..] + [c];
      DigitsFromSnoc(s[1..], c, acc * 10 + DigitValue(s[0]));
    }
  }

  /** str(n) for a natural number. */
  function NatToDigits(n: nat): (s: string)
    ensures |s| > 0
  {
    if n < 10 then [DigitChar(n)] else NatToDigits(n / 10) + [DigitChar(n % 10)]
  }

  lemma {:induction false} NatToDigitsRoundTrip(n: nat)
    ensures AllDigits(NatToDigits(n))
    ensures DigitsValue(NatToDigits(n)) == n
  {
    var s := NatToDigits(n);
    if n >= 10 {
      NatToDigitsRoundTrip(n / 10);
      DigitsFromSnoc(NatToDigits(n / 10), DigitChar(n % 10), 0);
    } else {
      assert s[1..] == [];
      assert DigitsFrom(s, 0) == DigitsFrom(s[1..], DigitValue(s[0]));
    }
  }

  function Pow(base: nat, e: nat): (r: nat)
    ensures base > 0 ==> r > 0
  {
    if e == 0 then 1 else base * Pow(base, e - 1)
  }

  predicate NumeralChar(c: char) { IsDigit(c) || c == '.' }

  predicate NumeralChars(s: string) { forall i :: 0 <= i < |s| ==> NumeralChar(s[i]) }

  /** What float() accepts among strings of digits and dots: at least one digit, at most one dot. */
  predicate WellFormedNumeral(s: string)
  {
    NumeralChars(s) && Count(s, '.') <= 1 && exists i :: 0 <= i < |s| && IsDigit(s[i])
  }

  /** The value of the digits after a decimal point: "25" is worth 0.25. */
  function FractionValue(s: string): (v: real)
    ensures 0.0 <= v < 1.0
  {
    if s == [] then 0.0 else (DigitValue(s[0]) as real + FractionValue(s[1..])) / 10.0
  }

  /** The exact value of a numeral "ddd", "ddd.", ".ddd" or "ddd.ddd". */
  function NumeralValue(s: string): (v: real)
    ensures v >= 0.0
  {
    WholeFrom(s, 0)
  }

  /** The integer part read so far is acc; the rest of the numeral is s. */
  function WholeFrom(s: string, acc: nat): (v: real)
    ensures v >= 0.0
  {
    if s == [] then acc as real
    else if s[0] == '.' then acc as real + FractionValue(s[1..])
    else WholeFrom(s[1..], acc * 10 + DigitValue(s[0]))
  }

  /** float(s) for s made of digits and dots; None where Python raises ValueError. */
  function ParseNumeral(s: string): (r: Option<real>)
    ensures r.Some? <==> WellFormedNumeral(s)
    ensures r.Some? ==> r.value == NumeralValue(s) && r.value >= 0.0
  {
    if WellFormedNumeral(s) then Some(NumeralValue(s)) else None
  }

  /** A numeral without a dot is worth its digits. */
  lemma {:induction false} IntegerNumeral(s: string)
    requires AllDigits(s)
    ensures NumeralValue(s) == DigitsValue(s) as real
  {
    WholeDigits(s, 0);
  }

  lemma {:induction false} WholeDigits(s: string, acc: nat)
    requires AllDigits(s)
    ensures WholeFrom(s, acc) == DigitsFrom(s, acc) as real
  {
    if s != [] {
      WholeDigits(s[1..], acc * 10 + DigitValue(s[0]));
    }
  }

  lemma {:induction false} WholeAppendDigits(d: string, rest: string, acc: nat)
    requires AllDigits(d)
    ensures WholeFrom(d + rest, acc) == WholeFrom(rest, DigitsFrom(d, acc))
  {
    if d == [] {
      assert d + rest == rest;
    } else {
      assert (d + rest)[0] == d[0] && (d + rest)[1..] == d[1..] + rest;
      assert IsDigit(d[0]);
      WholeAppendDigits(d[1..], rest, acc * 10 + DigitValue(d[0]));
    }
  }

  /** "ddd.0" is worth ddd, as Python's str() writes an integral float. */
  lemma {:induction false} PointZero(d: string)
    requires AllDigits(d)
    ensures NumeralValue(d + ".0") == DigitsValue(d) as real
  {
    WholeAppendDigits(d, ".0", 0);
    assert ".0"[1..] == "0";
    assert FractionValue("0") == 0.0;
  }
}
