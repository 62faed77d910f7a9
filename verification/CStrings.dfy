/** The C library string functions the parser and the router rely on, on the text before the
    terminating NUL. */
module CStrings {

  /** The C string that starts a byte sequence: everything before the first NUL. */
  function CStr(text: seq<char>): (s: string)
    ensures |s| <= |text| && s == text[..|s|]
  {
    text[..Until(text, {'\0'}, 0)]
  }

  /** First position at or after `from` that holds one of `stops`, else the length (`strcspn`). */
  function Until(s: string, stops: set<char>, from: nat): (i: nat)
    requires from <= |s|
    ensures from <= i <= |s|
    ensures forall k :: from <= k < i ==> s[k] !in stops
    ensures i < |s| ==> s[i] in stops
    decreases |s| - from
  {
    if from < |s| && s[from] !in stops then Until(s, stops, from + 1) else from
  }

  /** First position at or after `from` that holds none of `skip`, else the length (`strspn`). */
  function Past(s: string, skip: set<char>, from: nat): (i: nat)
    requires from <= |s|
    ensures from <= i <= |s|
    ensures forall k :: from <= k < i ==> s[k] in skip
    ensures i < |s| ==> s[i] !in skip
    decreases |s| - from
  {
    if from < |s| && s[from] in skip then Past(s, skip, from + 1) else from
  }

  /** A string with no NUL, followed by a NUL, reads back as itself. */
  lemma CStrOfTerminated(s: string, rest: seq<char>)
    requires forall k :: 0 <= k < |s| ==> s[k] != '\0'
    ensures CStr(s) == s
    ensures CStr(s + ['\0'] + rest) == s
  {
    var t := s + ['\0'] + rest;
    assert forall k :: 0 <= k < |s| ==> t[k] == s[k];
    assert t[|s|] == '\0';
    assert Until(t, {'\0'}, 0) == |s| && Until(s, {'\0'}, 0) == |s|;
  }

  function ToLower(c: char): char {
    if 'A' <= c <= 'Z' then (c as int + 32) as char else c
  }

  /** `strncasecmp(s, prefix, |prefix|) == 0`. */
  predicate HasPrefixNoCase(s: string, prefix: string) {
    |prefix| <= |s| && forall k :: 0 <= k < |prefix| ==> ToLower(s[k]) == ToLower(prefix[k])
  }

  // ---------------------------------------------------------------- numbers

  const LONG_MAX: int := 0x7FFF_FFFF_FFFF_FFFF
  const SIZE_RANGE: int := 0x1_0000_0000_0000_0000

  const SPACES: set<char> := {' ', '\t', '\n', '\U{0B}', '\U{0C}', '\r'}

  predicate IsDigit(c: char) {
    '0' <= c <= '9'
  }

  /** The value of the digits of `s` from `i` on, continuing from `acc`. */
  function DigitsFrom(s: string, i: nat, acc: nat): nat
    requires i <= |s|
    decreases |s| - i
  {
    if i < |s| && IsDigit(s[i]) then DigitsFrom(s, i + 1, 10 * acc + (s[i] as int - '0' as int)) else acc
  }

  /** `atol`: white space, a sign, digits; a value out of range saturates, as `strtol` does. */
  function Atol(s: string): (v: int)
    ensures -LONG_MAX - 1 <= v <= LONG_MAX
  {
    var i := Past(s, SPACES, 0);
    var negative := i < |s| && s[i] == '-';
    var start := if i < |s| && s[i] in {'-', '+'} then i + 1 else i;
    var magnitude: int := DigitsFrom(s, start, 0);
    if negative then (if magnitude > LONG_MAX + 1 then -LONG_MAX - 1 else -magnitude)
    else if magnitude > LONG_MAX then LONG_MAX else magnitude
  }

  /** The `long` result stored into a `size_t`. */
  function ToSize(v: int): (n: nat)
    requires -LONG_MAX - 1 <= v <= LONG_MAX
    ensures 0 <= v ==> n == v
  {
    if v < 0 then v + SIZE_RANGE else v
  }

  /** `std::to_string` of an unsigned number. */
  function Decimal(n: nat): (s: string)
    ensures s != [] && forall k :: 0 <= k < |s| ==> IsDigit(s[k])
  {
    var digit: char := ('0' as int + n % 10) as char;
    if n < 10 then [digit] else Decimal(n / 10) + [digit]
  }

  lemma {:induction false} DigitsOfAppend(s: string, digit: char, i: nat, acc: nat)
    requires i <= |s|
    requires forall k :: i <= k < |s| ==> IsDigit(s[k])
    requires IsDigit(digit)
    ensures DigitsFrom(s + [digit], i, acc) == 10 * DigitsFrom(s, i, acc) + (digit as int - '0' as int)
    decreases |s| - i
  {
    if i < |s| {
      DigitsOfAppend(s, digit, i + 1, 10 * acc + (s[i] as int - '0' as int));
    } else {
      assert DigitsFrom(s + [digit], |s| + 1, 10 * acc + (digit as int - '0' as int))
          == 10 * acc + (digit as int - '0' as int);
    }
  }

  lemma {:induction false} DigitsOfDecimal(n: nat)
    ensures DigitsFrom(Decimal(n), 0, 0) == n
  {
    var digit: char := ('0' as int + n % 10) as char;
    if n < 10 {
      assert DigitsFrom([digit], 1, n) == n;
    } else {
      DigitsOfDecimal(n / 10);
      DigitsOfAppend(Decimal(n / 10), digit, 0, 0);
    }
  }

  /** `atol` undoes `to_string` on every length that fits a `long`. */
  lemma AtolOfDecimal(n: nat)
    requires n <= LONG_MAX
    ensures ToSize(Atol(Decimal(n))) == n
  {
    var s := Decimal(n);
    assert IsDigit(s[0]);
    assert Past(s, SPACES, 0) == 0;
    DigitsOfDecimal(n);
  }

  /** What `to_string` writes: the decimal digits, the most significant first and no leading zero. */
  lemma DecimalIsDecimal(n: nat)
    ensures n < 10 ==> |Decimal(n)| == 1 && Decimal(n)[0] as int == 48 + n
    ensures n >= 10 ==>
              && |Decimal(n)| == |Decimal(n / 10)| + 1
              && Decimal(n)[..|Decimal(n)| - 1] == Decimal(n / 10)
              && Decimal(n)[|Decimal(n)| - 1] as int == 48 + n % 10
  {}

  lemma {:induction false} DigitsInside(before: string, digits: string, rest: string, acc: nat)
    requires forall k :: 0 <= k < |digits| ==> IsDigit(digits[k])
    requires rest != "" ==> !IsDigit(rest[0])
    ensures DigitsFrom(before + digits + rest, |before|, acc) == DigitsFrom(digits, 0, acc)
    decreases |digits|
  {
    var s := before + digits + rest;
    if digits == "" {
      assert s == before + rest;
    } else {
      var acc1 := 10 * acc + (digits[0] as int - '0' as int);
      assert s[|before|] == digits[0];
      assert s == (before + [digits[0]]) + digits[1..] + rest;
      DigitsInside(before + [digits[0]], digits[1..], rest, acc1);
      DigitsInside([digits[0]], digits[1..], "", acc1);
      assert [digits[0]] + digits[1..] + "" == digits;
    }
  }

  /** White space in front of a number. */
  predicate White(s: string) {
    forall i :: 0 <= i < |s| ==> s[i] == ' ' || '\t' <= s[i] <= '\r'
  }

  /** `atol` skips white space, takes a sign, reads the digits, stops at anything else and keeps to
      the range of a 64-bit `long`. */
  lemma AtolReads(white: string, sign: string, n: nat, rest: string)
    requires White(white) && (sign == "" || sign == "+" || sign == "-")
    requires rest != "" ==> !('0' <= rest[0] <= '9')
    ensures sign == "-" ==>
              Atol(white + sign + Decimal(n) + rest) ==
              (if n > 9223372036854775808 then -9223372036854775808 else -(n as int))
    ensures sign != "-" ==>
              Atol(white + sign + Decimal(n) + rest) == (if n > 9223372036854775807 then 9223372036854775807 else n)
  {
    hide Decimal, DigitsFrom, Past, White;
    var digits := Decimal(n);
    WhiteIsPassed(white, sign, digits, rest);
    DigitsInside(white + sign, digits, rest, 0);
    DigitsOfDecimal(n);
  }

  lemma WhiteIsPassed(white: string, sign: string, digits: string, rest: string)
    requires White(white) && (sign == "" || sign == "+" || sign == "-")
    requires digits != "" && IsDigit(digits[0])
    ensures var s := white + sign + digits + rest;
            && Past(s, SPACES, 0) == |white| && |white| < |s|
            && s[|white|] == (if sign == "" then digits[0] else sign[0])
  {
    var s := white + sign + digits + rest;
    assert s[|white|] == (if sign == "" then digits[0] else sign[0]);
    assert forall i :: 0 <= i < |white| ==> s[i] == white[i] && s[i] in SPACES;
  }

  /** Without digits `atol` gives zero. */
  lemma AtolOfNoNumber(s: string)
    requires forall i :: 0 <= i < |s| ==> !('0' <= s[i] <= '9')
    ensures Atol(s) == 0
  {}

  /** A negative `long` becomes the `size_t` that is equal to it modulo 2^64. */
  lemma ToSizeIsModular(v: int)
    requires -9223372036854775808 <= v <= 9223372036854775807
    ensures 0 <= ToSize(v) < 18446744073709551616
    ensures ToSize(v) == v || ToSize(v) == v + 18446744073709551616
  {}
}
