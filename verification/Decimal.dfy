/** Decimal numbers as the C library prints and reads them. */
module Decimal {

  const LONG_MAX: nat := 0x7fff_ffff  // the source is built where long has 32 bits

  predicate IsDigit(c: char) {
    '0' <= c <= '9'
  }

  function DigitChar(d: nat): char
    requires d < 10
  {
    '0' + d as char
  }

  function DigitValue(c: char): nat
    requires IsDigit(c)
  {
    (c - '0') as nat
  }

  /** `%lu` and `%lld` of a value that is not negative. */
  function Print(n: nat): string {
    if n < 10 then [DigitChar(n)] else Print(n / 10) + [DigitChar(n % 10)]
  }

  predicate AllDigits(s: string) {
    forall i :: 0 <= i < |s| ==> IsDigit(s[i])
  }

  function Value(s: string): nat
    requires AllDigits(s)
  {
    if s == "" then 0 else 10 * Value(s[..|s| - 1]) + DigitValue(s[|s| - 1])
  }

  /** The longest prefix of digits. */
  function LeadingDigits(s: string): (d: string)
    ensures AllDigits(d) && d <= s
    ensures |d| < |s| ==> !IsDigit(s[|d|])
  {
    if s == "" || !IsDigit(s[0]) then "" else [s[0]] + LeadingDigits(s[1..])
  }

  predicate IsBlank(c: char) {
    c == ' ' || '\t' <= c <= '\r'
  }

  function SkipBlanks(s: string): string {
    if s != "" && IsBlank(s[0]) then SkipBlanks(s[1..]) else s
  }

  /** `atol`: blanks, an optional sign, digits; the value saturates at the ends of long. */
  function Atol(s: string): int {
    var t := SkipBlanks(s);
    if t != "" && t[0] == '-' then
      var v: int := Value(LeadingDigits(t[1..]));
      if v > LONG_MAX + 1 then -(LONG_MAX + 1) else -v
    else
      var v: int := Value(LeadingDigits(if t != "" && t[0] == '+' then t[1..] else t));
      if v > LONG_MAX then LONG_MAX else v
  }

  lemma {:induction false} PrintIsDigits(n: nat)
    ensures Print(n) != "" && AllDigits(Print(n)) && Value(Print(n)) == n
  {
    if n < 10 {
      assert Print(n)[..0] == "";
    } else {
      PrintIsDigits(n / 10);
      assert Print(n)[..|Print(n)| - 1] == Print(n / 10);
    }
  }

  lemma {:induction false} LeadingDigitsOfDigits(s: string)
    requires AllDigits(s)
    ensures LeadingDigits(s) == s
  {
    if s != "" {
      LeadingDigitsOfDigits(s[1..]);
    }
  }

  /** A printed number is read back exactly when it fits in a long. */
  lemma AtolPrint(n: nat)
    ensures Atol(Print(n)) == if n <= LONG_MAX then n else LONG_MAX
    ensures Atol(Print(n)) == n <==> n <= LONG_MAX
  {
    PrintIsDigits(n);
    LeadingDigitsOfDigits(Print(n));
  }

  // ----- numbers with something around them

  predicate NoDigitFirst(s: string) {
    s == "" || !IsDigit(s[0])
  }

  lemma {:induction false} LeadingDigitsStop(d: string, rest: string)
    requires AllDigits(d) && NoDigitFirst(rest)
    ensures LeadingDigits(d + rest) == d
  {
    if d == "" {
      assert d + rest == rest;
    } else {
      assert (d + rest)[1..] == d[1..] + rest;
      LeadingDigitsStop(d[1..], rest);
    }
  }

  lemma {:induction false} BlanksAreSkipped(blanks: string, s: string)
    requires forall i :: 0 <= i < |blanks| ==> IsBlank(blanks[i])
    requires s == "" || !IsBlank(s[0])
    ensures SkipBlanks(blanks + s) == s
  {
    if blanks == "" {
      assert blanks + s == s;
    } else {
      assert (blanks + s)[1..] == blanks[1..] + s;
      BlanksAreSkipped(blanks[1..], s);
    }
  }

  /** The nearest value a long can hold. */
  function Saturated(v: int): int {
    if v > LONG_MAX then LONG_MAX else if v < -(LONG_MAX + 1) then -(LONG_MAX + 1) else v
  }

  /** What `atol` does once the blanks are skipped. */
  lemma AtolOf(s: string, n: nat, sign: string, rest: string)
    requires SkipBlanks(s) == sign + (Print(n) + rest) && sign in ["", "+", "-"] && NoDigitFirst(rest)
    ensures Atol(s) == Saturated(if sign == "-" then -(n as int) else n)
  {
    PrintIsDigits(n);
    LeadingDigitsStop(Print(n), rest);
    hide SkipBlanks, LeadingDigits, Print, Value;
    var d, t := Print(n), sign + (Print(n) + rest);
    assert d[0] != '-' && d[0] != '+';
    if sign == "" {
      assert t == d + rest && t[0] == d[0];
    } else {
      assert t[1..] == d + rest && t[0] == sign[0];
    }
  }

  lemma SignIsNoBlank(n: nat, sign: string, rest: string)
    requires sign in ["", "+", "-"]
    ensures var t := sign + (Print(n) + rest); t != "" && !IsBlank(t[0])
  {
    PrintIsDigits(n);
    hide Print, Value;
    assert (sign + (Print(n) + rest))[0] == if sign == "" then Print(n)[0] else sign[0];
  }

  /** Blanks before a number, a sign, and what follows its digits: the number is read up to there. */
  lemma AtolReads(blanks: string, sign: string, n: nat, rest: string)
    requires forall i :: 0 <= i < |blanks| ==> blanks[i] as int in {9, 10, 11, 12, 13, 32}
    requires sign in ["", "+", "-"] && NoDigitFirst(rest)
    ensures Atol(blanks + (sign + (Print(n) + rest))) == Saturated(if sign == "-" then -(n as int) else n)
  {
    SignIsNoBlank(n, sign, rest);
    BlanksAreBlank(blanks);
    hide Atol, SkipBlanks, Print;
    BlanksAreSkipped(blanks, sign + (Print(n) + rest));
    AtolOf(blanks + (sign + (Print(n) + rest)), n, sign, rest);
  }

  lemma BlanksAreBlank(blanks: string)
    requires forall i :: 0 <= i < |blanks| ==> blanks[i] as int in {9, 10, 11, 12, 13, 32}
    ensures forall i :: 0 <= i < |blanks| ==> IsBlank(blanks[i])
  {
  }

  /** A text without a number is read as 0. */
  lemma AtolOfText(s: string)
    requires s == "" || (!IsDigit(s[0]) && !IsBlank(s[0]) && s[0] != '+' && s[0] != '-')
    ensures Atol(s) == 0
  {
  }
}
