/**
 Decimal text of unsigned 64-bit integers: `fmt.Sprintf("%d", id)` and
 `strconv.ParseUint(s, 10, 64)`, the two conversions between database ids and
 the string ids used by the transfer manager and by channel ids.
 */
module Decimal {
  import opened Common

  predicate IsDigit(c: char) { '0' <= c <= '9' }

  predicate AllDigits(s: string) { forall i :: 0 <= i < |s| ==> IsDigit(s[i]) }

  function DigitValue(c: char): nat
    requires IsDigit(c)
  {
    c as int - '0' as int
  }

  function DigitChar(d: nat): (c: char)
    requires d < 10
    ensures IsDigit(c) && DigitValue(c) == d
  {
    ('0' as int + d) as char
  }

  lemma DigitsLackDash(s: string)
    requires AllDigits(s)
    ensures '-' !in s && '/' !in s
  {
  }

  /** The number a digit string denotes, whatever its size and leading zeros. */
  function Value(s: string): nat
    requires AllDigits(s)
  {
    if s == "" then 0 else 10 * Value(s[..|s| - 1]) + DigitValue(s[|s| - 1])
  }

  /** `%d` of a non-negative integer: no sign, no leading zero. */
  function Format(n: nat): (s: string)
    ensures s != "" && AllDigits(s)
  {
    if n < 10 then [DigitChar(n)] else Format(n / 10) + [DigitChar(n % 10)]
  }

  /** `strconv.ParseUint(s, 10, 64)`: empty, non-digit and out-of-range texts are errors. */
  function ParseUint(s: string): Option<nat> {
    if s != "" && AllDigits(s) && Value(s) < UINT64_SIZE then Some(Value(s)) else None
  }

  function LeadingDigits(s: string): (r: string)
    ensures AllDigits(r)
  {
    if s == "" || !IsDigit(s[0]) then "" else [s[0]] + LeadingDigits(s[1..])
  }

  /**
   The number `strconv.ParseUint` returns whether or not it also returns an
   error: the greatest uint64 once the digits read so far are out of range, 0 on
   a syntax error before that.
   */
  function ParsedNumber(s: string): nat {
    match ParseUint(s)
    case Some(n) => n
    case None => if Value(LeadingDigits(s)) >= UINT64_SIZE then UINT64_SIZE - 1 else 0
  }

  lemma {:induction false} LeadingDigitsOf(digits: string, rest: string)
    requires AllDigits(digits) && (rest == "" || !IsDigit(rest[0]))
    ensures LeadingDigits(digits + rest) == digits
  {
    if digits == "" {
      assert digits + rest == rest;
    } else {
      assert (digits + rest)[1..] == digits[1..] + rest;
      LeadingDigitsOf(digits[1..], rest);
    }
  }

  /**
   The three cases, told by the digits a text begins with: the number itself, the
   greatest uint64 if those digits are already too large, 0 if the text is faulty.
   */
  lemma ParsedNumberCases(digits: string, rest: string)
    requires AllDigits(digits) && (rest == "" || !IsDigit(rest[0]))
    ensures ParsedNumber(digits + rest) ==
            if Value(digits) >= UINT64_SIZE then UINT64_SIZE - 1 else if rest == "" then Value(digits) else 0
  {
    LeadingDigitsOf(digits, rest);
    if rest == "" {
      assert digits + rest == digits;
    } else {
      assert (digits + rest)[|digits|] == rest[0];
    }
  }

  predicate NoLeadingZero(s: string) { s != "" && (s[0] == '0' ==> s == "0") }

  lemma {:induction false} FormatValue(n: nat)
    ensures Value(Format(n)) == n && NoLeadingZero(Format(n))
    ensures n > 0 ==> Format(n)[0] != '0'
  {
    if n < 10 {
      assert Format(n)[..0] == "";
    } else {
      FormatValue(n / 10);
      var s := Format(n);
      assert s[..|s| - 1] == Format(n / 10);
      assert s[0] == Format(n / 10)[0];
    }
  }

  lemma {:induction false} CanonicalIsFormat(s: string)
    requires AllDigits(s) && NoLeadingZero(s)
    ensures Format(Value(s)) == s
    ensures s != "0" ==> Value(s) > 0
  {
    var p := s[..|s| - 1];
    if |s| == 1 {
      assert Value(p) == 0;
    } else {
      assert p[0] == s[0];
      CanonicalIsFormat(p);
      assert Value(p) > 0;
      assert Value(s) / 10 == Value(p) && Value(s) % 10 == DigitValue(s[|s| - 1]);
      assert s == p + [s[|s| - 1]];
    }
  }

  /** Every 64-bit id survives printing and parsing. */
  lemma ParseFormat(n: nat)
    requires n < UINT64_SIZE
    ensures ParseUint(Format(n)) == Some(n)
  {
    FormatValue(n);
  }

  /** Two ids print alike only when they are equal. */
  lemma FormatInjective(m: nat, n: nat)
    ensures Format(m) == Format(n) <==> m == n
  {
    FormatValue(m);
    FormatValue(n);
  }

  /** Printing what was parsed drops leading zeros and changes nothing else. */
  lemma FormatParse(s: string)
    requires ParseUint(s).Some?
    ensures Format(ParseUint(s).value) == s <==> NoLeadingZero(s)
    ensures ParseUint(Format(ParseUint(s).value)) == ParseUint(s)
  {
    FormatValue(ParseUint(s).value);
    if NoLeadingZero(s) {
      CanonicalIsFormat(s);
    }
  }
}
