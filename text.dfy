/**
 * The engine's string helpers the rules rely on: FString::FromInt, FCString::Atoi,
 * FCString::Atof, FString::ToBool, "%.1f"-style formatting and FString::Join.
 */
module Text {
  import Numeric

  /** The text of the engine name NAME_None. */
  const NameNone := "None"

  predicate IsDigit(c: char) { '0' <= c <= '9' }

  predicate AllDigits(s: string) { forall i :: 0 <= i < |s| ==> IsDigit(s[i]) }

  function DigitValue(c: char): (d: nat)
    requires IsDigit(c)
    ensures d < 10
  {
    (c as int) - ('0' as int)
  }

  function DigitChar(d: nat): (c: char)
    requires d < 10
    ensures IsDigit(c) && DigitValue(c) == d
  {
    (('0' as int) + d) as char
  }

  /** n / 10, by repeated subtraction. */
  function Div10(n: nat): (q: nat)
    ensures 10 * q <= n < 10 * q + 10
  {
    if n < 10 then 0 else 1 + Div10(n - 10)
  }

  /** Decimal digits of a natural number, most significant first, no leading zeros. */
  function NatToString(n: nat): (s: string)
    ensures |s| >= 1
  {
    if n < 10 then [DigitChar(n)] else NatToString(Div10(n)) + [DigitChar(n - 10 * Div10(n))]
  }

  /** FString::FromInt. */
  function IntToString(n: int): string
  {
    if n < 0 then "-" + NatToString(-n) else NatToString(n)
  }

  /** Value of a string made only of digits. */
  function DigitsValue(s: string): nat
    requires AllDigits(s)
  {
    if s == [] then 0 else DigitsValue(s[..|s| - 1]) * 10 + DigitValue(s[|s| - 1])
  }

  /** Length of the longest prefix of s made of digits. */
  function DigitPrefixLength(s: string): (k: nat)
    ensures k <= |s| && AllDigits(s[..k])
    ensures k < |s| ==> !IsDigit(s[k])
  {
    if s == [] || !IsDigit(s[0]) then 0
    else
      var k := 1 + DigitPrefixLength(s[1..]);
      assert s[..k] == [s[0]] + s[1..][..k - 1];
      k
  }

  function SkipSpaces(s: string): string
  {
    if s != [] && (s[0] == ' ' || s[0] == '\t') then SkipSpaces(s[1..]) else s
  }

  /** Sign and remaining text after an optional leading '+' or '-'. */
  function SplitSign(s: string): (bool, string)
  {
    if s != [] && s[0] == '-' then (true, s[1..])
    else if s != [] && s[0] == '+' then (false, s[1..])
    else (false, s)
  }

  /** FCString::Atoi: optional blanks and sign, then the leading digits; 0 if there are none. */
  function Atoi(s: string): int
  {
    var (negative, rest) := SplitSign(SkipSpaces(s));
    var digits := rest[..DigitPrefixLength(rest)];
    if negative then -(DigitsValue(digits) as int) else DigitsValue(digits)
  }

  /** Value of a fraction's digits: "25" stands for 0.25. */
  function FractionValue(s: string): real
    requires AllDigits(s)
  {
    if s == [] then 0.0 else (DigitValue(s[0]) as real + FractionValue(s[1..])) / 10.0
  }

  /**
   * FCString::Atof for plain decimals: optional blanks and sign, integer digits,
   * then an optional '.' and fraction digits.
   */
  function Atof(s: string): real
  {
    var (negative, rest) := SplitSign(SkipSpaces(s));
    var k := DigitPrefixLength(rest);
    var whole := DigitsValue(rest[..k]) as real;
    var after := rest[k..];
    var fraction :=
      if after != [] && after[0] == '.' then
        var f := after[1..];
        FractionValue(f[..DigitPrefixLength(f)])
      else 0.0;
    if negative then -(whole + fraction) else whole + fraction
  }

  function LowerChar(c: char): char
  {
    if 'A' <= c <= 'Z' then ((c as int) - ('A' as int) + ('a' as int)) as char else c
  }

  function Lower(s: string): (r: string)
    ensures |r| == |s|
  {
    if s == [] then [] else [LowerChar(s[0])] + Lower(s[1..])
  }

  predicate EqualsIgnoreCase(a: string, b: string) { Lower(a) == Lower(b) }

  /** FString::ToBool: "true", "yes" or "on" in any case, otherwise a non-zero number. */
  function ToBool(s: string): bool
  {
    var l := Lower(s);
    if l == "true" || l == "yes" || l == "on" then true
    else if l == "false" || l == "no" || l == "off" then false
    else Atoi(s) != 0
  }

  /** FString::StartsWith with its default search case, which ignores case. */
  predicate StartsWith(s: string, prefix: string) { Lower(prefix) <= Lower(s) }

  /** Lowering works character by character, so it distributes over concatenation. */
  lemma {:induction false} LowerConcat(a: string, b: string)
    ensures Lower(a + b) == Lower(a) + Lower(b)
  {
    if a != [] {
      assert (a + b)[1..] == a[1..] + b;
      LowerConcat(a[1..], b);
    } else {
      assert a + b == b;
    }
  }

  /** A text with the prefix put in front starts with that prefix. */
  lemma PrefixedStartsWith(prefix: string, s: string)
    ensures StartsWith(prefix + s, prefix)
  {
    LowerConcat(prefix, s);
  }

  /** FString::Join: the parts with the separator between consecutive ones. */
  function Join(parts: seq<string>, sep: string): string
  {
    if |parts| == 0 then "" else if |parts| == 1 then parts[0] else parts[0] + sep + Join(parts[1..], sep)
  }

  /** The append loop the descriptions use: each part in turn, the separator after all but the last. */
  method JoinParts(parts: seq<string>, sep: string) returns (s: string)
    ensures s == Join(parts, sep)
  {
    s := "";
    var i := 0;
    while i < |parts|
      invariant 0 <= i <= |parts|
      invariant i == 0 ==> s == ""
      invariant 0 < i < |parts| ==> s == Join(parts[..i], sep) + sep
      invariant i == |parts| > 0 ==> s == Join(parts, sep)
    {
      JoinSnoc(parts[..i], parts[i], sep);
      assert parts[..i + 1] == parts[..i] + [parts[i]];
      ghost var joined := Join(parts[..i + 1], sep);
      assert s + parts[i] == joined;
      s := s + parts[i];
      if i < |parts| - 1 {
        s := s + sep;
      } else {
        assert parts[..i + 1] == parts;
      }
      i := i + 1;
    }
  }

  /**
   * FString::ParseIntoArray with a one-character delimiter and empty pieces
   * culled: the maximal runs of other characters, in order.
   */
  function SplitCulled(s: string, delim: char): seq<string>
  {
    SplitFrom(s, delim, "")
  }

  /** The pieces of s, the first of them continuing the piece already begun. */
  function SplitFrom(s: string, delim: char, current: string): seq<string>
    decreases |s|
  {
    if |s| == 0 then (if current == "" then [] else [current])
    else if s[0] == delim then (if current == "" then [] else [current]) + SplitFrom(s[1..], delim, "")
    else SplitFrom(s[1..], delim, current + [s[0]])
  }

  /** s with every occurrence of c removed. */
  function Without(s: string, c: char): (r: string)
    ensures c !in r
  {
    if |s| == 0 then "" else (if s[0] == c then "" else [s[0]]) + Without(s[1..], c)
  }

  /**
   * Splitting loses only the delimiters: every piece is non-empty and free of the
   * delimiter, and the pieces put back together give the begun piece followed by
   * s without its delimiters.
   */
  lemma {:induction false} SplitFromPieces(s: string, delim: char, current: string)
    requires delim !in current
    ensures forall k :: 0 <= k < |SplitFrom(s, delim, current)| ==>
              SplitFrom(s, delim, current)[k] != "" && delim !in SplitFrom(s, delim, current)[k]
    ensures Join(SplitFrom(s, delim, current), "") == current + Without(s, delim)
  {
    if |s| == 0 {
    } else if s[0] == delim {
      SplitFromPieces(s[1..], delim, "");
      var rest := SplitFrom(s[1..], delim, "");
      assert Without(s, delim) == Without(s[1..], delim);
      if current == "" {
        assert SplitFrom(s, delim, current) == rest;
      } else if rest == [] {
        assert SplitFrom(s, delim, current) == [current];
      } else {
        assert SplitFrom(s, delim, current) == [current] + rest;
        assert ([current] + rest)[1..] == rest;
        assert Join([current] + rest, "") == current + "" + Join(rest, "");
      }
    } else {
      SplitFromPieces(s[1..], delim, current + [s[0]]);
      assert current + [s[0]] + Without(s[1..], delim) == current + Without(s, delim);
    }
  }

  /** The culled split of s: non-empty, delimiter-free pieces that make up s without its delimiters. */
  lemma SplitCulledPieces(s: string, delim: char)
    ensures forall k :: 0 <= k < |SplitCulled(s, delim)| ==> SplitCulled(s, delim)[k] != "" && delim !in SplitCulled(s, delim)[k]
    ensures Join(SplitCulled(s, delim), "") == Without(s, delim)
  {
    SplitFromPieces(s, delim, "");
  }

  /** "%.<n>f" formatting: the value rounded half up to n decimals. */
  function FixedPoint(x: real, decimals: nat): string
  {
    var q := Numeric.RoundToInt(x * PowTen(decimals) as real);
    (if q < 0 then "-" else "") + ScaledDigits(if q < 0 then -q else q, decimals)
  }

  /** The digits of a / 10^decimals, with exactly that many digits after the point. */
  function ScaledDigits(a: nat, decimals: nat): string
  {
    var s := PadLeft(NatToString(a), decimals + 1);
    var cut := |s| - decimals;
    s[..cut] + (if decimals == 0 then "" else "." + s[cut..])
  }

  function PowTen(n: nat): (r: nat)
    ensures r >= 1
  {
    if n == 0 then 1 else 10 * PowTen(n - 1)
  }

  function PadLeft(s: string, width: nat): (r: string)
    ensures |r| >= width && |r| >= |s|
    decreases width - |s|
  {
    if |s| >= width then s else PadLeft("0" + s, width)
  }

  /**
   * FString::SanitizeFloat: "%f" (six decimals), then the trailing zeros of the
   * fraction dropped, keeping at least one digit after the point.
   */
  function SanitizeFloat(x: real): string
  {
    TrimFractionZeros(FixedPoint(x, 6))
  }

  function TrimFractionZeros(s: string): (r: string)
    ensures r <= s
    decreases |s|
  {
    if |s| >= 2 && s[|s| - 1] == '0' && s[|s| - 2] != '.' then TrimFractionZeros(s[..|s| - 1]) else s
  }

  function Fixed1(x: real): string { FixedPoint(x, 1) }
  function Fixed2(x: real): string { FixedPoint(x, 2) }

  // ---------------------------------------------------------------------------
  // Round trips between printing and parsing

  lemma {:induction false} NatToStringDigits(n: nat)
    ensures AllDigits(NatToString(n))
  {
    if n >= 10 {
      NatToStringDigits(Div10(n));
    }
  }

  lemma {:induction false} DigitsValueOfNatToString(n: nat)
    ensures AllDigits(NatToString(n)) && DigitsValue(NatToString(n)) == n
  {
    NatToStringDigits(n);
    var s := NatToString(n);
    if n >= 10 {
      DigitsValueOfNatToString(Div10(n));
      assert s[..|s| - 1] == NatToString(Div10(n));
    }
  }

  lemma {:induction false} DigitPrefixOfDigits(s: string)
    requires AllDigits(s)
    ensures DigitPrefixLength(s) == |s|
  {
    if s != [] {
      DigitPrefixOfDigits(s[1..]);
    }
  }

  /** Atoi reads back exactly the number FromInt printed. */
  lemma AtoiOfIntToString(n: int)
    ensures Atoi(IntToString(n)) == n
  {
    var digits := NatToString(if n < 0 then -n else n);
    NatToStringDigits(if n < 0 then -n else n);
    DigitPrefixOfDigits(digits);
    DigitsValueOfNatToString(if n < 0 then -n else n);
    assert digits[..|digits|] == digits;
    if n < 0 {
      assert IntToString(n) == "-" + digits;
      assert SkipSpaces(IntToString(n)) == IntToString(n);
      assert SplitSign("-" + digits).1 == digits;
    } else {
      assert SkipSpaces(digits) == digits;
      assert SplitSign(digits) == (false, digits);
    }
  }

  /** A join is as long as its parts plus one separator between each consecutive pair. */
  lemma {:induction false} JoinLength(parts: seq<string>, sep: string)
    requires |parts| >= 1
    ensures |Join(parts, sep)| == SumLengths(parts) + (|parts| - 1) * |sep|
  {
    if |parts| > 1 {
      JoinLength(parts[1..], sep);
    }
  }

  /** Joining one more part appends the separator and the part (nothing before a first part). */
  lemma {:induction false} JoinSnoc(parts: seq<string>, p: string, sep: string)
    ensures Join(parts + [p], sep) == if |parts| == 0 then p else Join(parts, sep) + sep + p
  {
    if |parts| > 1 {
      assert (parts + [p])[1..] == parts[1..] + [p];
      JoinSnoc(parts[1..], p, sep);
    } else if |parts| == 1 {
      assert (parts + [p])[1..] == [p];
    }
  }

  function SumLengths(parts: seq<string>): nat
  {
    if parts == [] then 0 else |parts[0]| + SumLengths(parts[1..])
  }
}
