/** The C library's number readers as the parsers use them, and printers they invert. */
module Numerals {
  import opened Ascii

  const INT_MAX: int := 0x7FFF_FFFF
  const LONG_MAX: int := 0x7FFF_FFFF_FFFF_FFFF
  const SIZE_MAX: int := 0xFFFF_FFFF_FFFF_FFFF

  /** The value of a digit in bases up to 36; 36 for a byte that is no digit. */
  function DigitValue(c: char): nat {
    if '0' <= c <= '9' then c as int - '0' as int
    else if 'a' <= c <= 'z' then c as int - 'a' as int + 10
    else if 'A' <= c <= 'Z' then c as int - 'A' as int + 10
    else 36
  }

  predicate AllDigits(s: string, base: nat) {
    forall i :: 0 <= i < |s| ==> DigitValue(s[i]) < base
  }

  function SkipSpaces(s: string): string {
    if s != "" && IsSpace(s[0]) then SkipSpaces(s[1..]) else s
  }

  function DigitPrefix(s: string, base: nat): string {
    if s == "" || DigitValue(s[0]) >= base then "" else [s[0]] + DigitPrefix(s[1..], base)
  }

  /** The number a digit string denotes, most significant digit first. */
  function Value(digits: string, base: nat): nat {
    if digits == "" then 0
    else Value(digits[..|digits| - 1], base) * base + DigitValue(digits[|digits| - 1])
  }

  function WithoutSign(s: string): string {
    if s != "" && (s[0] == '-' || s[0] == '+') then s[1..] else s
  }

  function WithoutPrefix(s: string, base: nat): string {
    if base == 16 && |s| >= 2 && s[0] == '0' && (s[1] == 'x' || s[1] == 'X') then s[2..] else s
  }

  /** `strtol`: leading white space, a sign, an optional "0x" in base 16, clamped to a long. */
  function Strtol(s: string, base: nat): int {
    var t := SkipSpaces(s);
    var digits := WithoutPrefix(WithoutSign(t), base);
    var v: int := Value(DigitPrefix(digits, base), base);
    if t != "" && t[0] == '-'
    then if v > LONG_MAX then -LONG_MAX - 1 else -v
    else if v > LONG_MAX then LONG_MAX else v
  }

  /** Conversion of a long to a 32-bit int. */
  function ToInt32(v: int): int {
    var m := v % 0x1_0000_0000;
    if m > INT_MAX then m - 0x1_0000_0000 else m
  }

  /** `atoi`, which the C library computes as `(int) strtol(s, NULL, 10)`. */
  function Atoi(s: string): int {
    ToInt32(Strtol(s, 10))
  }

  lemma AtoiRange(s: string)
    ensures -INT_MAX - 1 <= Atoi(s) <= INT_MAX
  {
    hide Strtol;
  }

  /** Conversion of a long to a 64-bit size. */
  function ToSize(v: int): nat {
    v % 0x1_0000_0000_0000_0000
  }

  /** `--n` on a 64-bit size. */
  function Decrement(n: nat): nat {
    if n == 0 then SIZE_MAX else n - 1
  }

  function DigitChar(d: nat): (c: char)
    requires d < 16
    ensures DigitValue(c) == d
    ensures d < 10 ==> IsDigit(c)
    ensures IsAlnum(c)
  {
    if d < 10 then ('0' as int + d) as char else ('a' as int + d - 10) as char
  }

  /** A number without leading zeros. */
  function Print(n: nat, base: nat): (s: string)
    requires base == 10 || base == 16
    ensures s != ""
  {
    if n < base then [DigitChar(n)] else Print(n / base, base) + [DigitChar(n % base)]
  }

  lemma {:induction false} PrintIsDigits(n: nat, base: nat)
    requires base == 10 || base == 16
    ensures Print(n, base) != "" && AllDigits(Print(n, base), base)
    ensures Value(Print(n, base), base) == n
    ensures forall i :: 0 <= i < |Print(n, base)| ==> IsAlnum(Print(n, base)[i])
    ensures base == 10 ==> forall i :: 0 <= i < |Print(n, base)| ==> IsDigit(Print(n, base)[i])
  {
    if n < base {
      assert Value([DigitChar(n)], base) == Value("", base) * base + DigitValue(DigitChar(n));
    } else {
      PrintIsDigits(n / base, base);
      var front := Print(n / base, base);
      assert Print(n, base) == front + [DigitChar(n % base)];
      assert Print(n, base)[..|front|] == front;
      assert n / base * base + n % base == n;
    }
  }

  lemma {:induction false} DigitPrefixOfDigits(s: string, base: nat)
    requires AllDigits(s, base)
    ensures DigitPrefix(s, base) == s
  {
    if s != "" {
      DigitPrefixOfDigits(s[1..], base);
      assert s == [s[0]] + s[1..];
    }
  }

  lemma StrtolOfDigits(s: string, base: nat)
    requires base == 10 || base == 16
    requires s != "" && AllDigits(s, base)
    ensures Strtol(s, base) == if Value(s, base) <= LONG_MAX then Value(s, base) else LONG_MAX
  {
    hide Value;
    DigitPrefixOfDigits(s, base);
    assert DigitValue(s[0]) < base;
    assert !IsSpace(s[0]) && s[0] != '-' && s[0] != '+';
    assert SkipSpaces(s) == s;
    assert |s| >= 2 ==> DigitValue(s[1]) < base;
  }

  /** `strtol` reads back what `Print` wrote, as long as the number fits. */
  lemma {:induction false} StrtolReadsPrint(n: nat, base: nat)
    requires base == 10 || base == 16
    ensures Strtol(Print(n, base), base) == if n <= LONG_MAX then n else LONG_MAX
  {
    var s := Print(n, base);
    PrintIsDigits(n, base);
    StrtolOfDigits(s, base);
  }

  lemma AtoiReadsPrint(n: nat)
    requires n <= INT_MAX
    ensures Atoi(Print(n, 10)) == n
  {
    hide Strtol, Print;
    StrtolReadsPrint(n, 10);
  }

  /** Digits in order, in both cases; no other byte is a digit of base 16. */
  lemma HexDigits(d: nat, c: char)
    requires d < 16
    ensures DigitValue("0123456789abcdef"[d]) == d && DigitValue("0123456789ABCDEF"[d]) == d
    ensures DigitValue(c) == d ==> c == "0123456789abcdef"[d] || c == "0123456789ABCDEF"[d]
  {
  }

  lemma {:induction false} SkipsSpaces(spaces: string, t: string)
    requires forall i :: 0 <= i < |spaces| ==> spaces[i] == ' ' || '\t' <= spaces[i] <= '\r'
    requires t == "" || !IsSpace(t[0])
    ensures SkipSpaces(spaces + t) == t
  {
    if spaces == "" {
      assert spaces + t == t;
    } else {
      assert (spaces + t)[1..] == spaces[1..] + t;
      SkipsSpaces(spaces[1..], t);
    }
  }

  lemma {:induction false} DigitsBeforeRest(digits: string, rest: string, base: nat)
    requires AllDigits(digits, base) && (rest == "" || DigitValue(rest[0]) >= base)
    ensures DigitPrefix(digits + rest, base) == digits
  {
    if digits == "" {
      assert digits + rest == rest;
    } else {
      assert (digits + rest)[1..] == digits[1..] + rest;
      DigitsBeforeRest(digits[1..], rest, base);
    }
  }

  lemma AfterSpaces(spaces: string, t: string, base: nat)
    requires forall i :: 0 <= i < |spaces| ==> spaces[i] == ' ' || '\t' <= spaces[i] <= '\r'
    requires t == "" || !IsSpace(t[0])
    ensures Strtol(spaces + t, base) == Strtol(t, base)
  {
    SkipsSpaces(spaces, t);
    SkipsSpaces("", t);
    assert "" + t == t;
  }

  /** `strtol` in base 10: white space, a sign or none, digits, and whatever else, of which nothing is read. */
  lemma StrtolReadsDecimal(spaces: string, sign: string, digits: string, rest: string)
    requires forall i :: 0 <= i < |spaces| ==> spaces[i] == ' ' || '\t' <= spaces[i] <= '\r'
    requires (sign == "" || sign == "+" || sign == "-") && digits != ""
    requires forall i :: 0 <= i < |digits| ==> '0' <= digits[i] <= '9'
    requires rest == "" || !('0' <= rest[0] <= '9')
    ensures
      var v: int := Value(digits, 10);
      Strtol(spaces + (sign + digits + rest), 10) ==
      if sign == "-" then (if v <= 0x7FFF_FFFF_FFFF_FFFF then -v else -0x8000_0000_0000_0000)
      else if v <= 0x7FFF_FFFF_FFFF_FFFF then v else 0x7FFF_FFFF_FFFF_FFFF
  {
    hide Value, SkipSpaces, DigitPrefix, Strtol, IsSpace, DigitValue, AllDigits;
    NotSpace(sign, digits, rest);
    var t := sign + (digits + rest);
    assert t == sign + digits + rest;
    AfterSpaces(spaces, t, 10);
    SignedDigits(sign, digits + rest);
    DecimalDigits(digits, rest);
    DigitsBeforeRest(digits, rest, 10);
  }

  lemma NotSpace(sign: string, digits: string, rest: string)
    requires (sign == "" || sign == "+" || sign == "-") && digits != "" && '0' <= digits[0] <= '9'
    ensures !IsSpace((sign + (digits + rest))[0])
    ensures (digits + rest)[0] == digits[0]
  {
  }

  lemma DecimalDigits(digits: string, rest: string)
    requires forall i :: 0 <= i < |digits| ==> '0' <= digits[i] <= '9'
    requires rest == "" || !('0' <= rest[0] <= '9')
    ensures AllDigits(digits, 10) && (rest == "" || DigitValue(rest[0]) >= 10)
  {
  }

  /** Without white space: the sign, and the digits at the front of what follows. */
  lemma SignedDigits(sign: string, text: string)
    requires (sign == "" || sign == "+" || sign == "-") && text != "" && '0' <= text[0] <= '9'
    ensures
      var v: int := Value(DigitPrefix(text, 10), 10);
      Strtol(sign + text, 10) ==
      if sign == "-" then (if v <= LONG_MAX then -v else -LONG_MAX - 1)
      else if v <= LONG_MAX then v else LONG_MAX
  {
    hide Value, DigitPrefix;
    var t := sign + text;
    SkipsSpaces("", t);
    assert "" + t == t;
    if sign == "" {
      assert t == text;
    } else {
      assert t[1..] == text;
    }
  }

  /** In base 16 the digits may follow "0x". */
  lemma StrtolReadsPrefixedHex(x: char, digits: string)
    requires x == 'x' || x == 'X'
    requires AllDigits(digits, 16)
    ensures Strtol("0" + [x] + digits, 16) == if Value(digits, 16) <= LONG_MAX then Value(digits, 16) else LONG_MAX
  {
    hide Value, SkipSpaces, DigitPrefix, WithoutSign, WithoutPrefix;
    var t := "0" + [x] + digits;
    ZeroX(t, digits);
    DigitPrefixOfDigits(digits, 16);
  }

  lemma ZeroX(t: string, digits: string)
    requires |t| >= 2 && t[0] == '0' && (t[1] == 'x' || t[1] == 'X') && t[2..] == digits
    ensures SkipSpaces(t) == t && WithoutSign(t) == t && WithoutPrefix(t, 16) == digits
  {
  }

  /** `atoi` wraps a long to 32 bits. */
  lemma AtoiWraps(digits: string)
    requires digits != "" && forall i :: 0 <= i < |digits| ==> '0' <= digits[i] <= '9'
    requires Value(digits, 10) <= 0x7FFF_FFFF_FFFF_FFFF
    ensures
      var m := Value(digits, 10) % 0x1_0000_0000;
      Atoi(digits) == if m < 0x8000_0000 then m else m - 0x1_0000_0000
  {
    StrtolReadsDecimal("", "", digits, "");
    assert "" + ("" + digits + "") == digits;
    hide Value, Strtol;
  }
}
