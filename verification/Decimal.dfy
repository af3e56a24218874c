/** ASCII letters and decimal numerals, as the program prints and reads them. */
module Decimal {

  predicate IsDigit(c: char) { '0' <= c <= '9' }

  function DigitOf(d: nat): char
    requires d < 10
  {
    '0' + d as char
  }

  function ValueOf(c: char): nat
    requires IsDigit(c)
  {
    (c - '0') as nat
  }

  /** A natural number in decimal. */
  function Digits(n: nat): (s: string)
    ensures s != [] && forall c <- s :: IsDigit(c)
  {
    if n < 10 then [DigitOf(n)] else Digits(n / 10) + [DigitOf(n % 10)]
  }

  /** An integer in decimal. */
  function Show(n: int): string {
    if n < 0 then ['-'] + Digits(-n) else Digits(n)
  }

  /** The number a run of digits denotes. */
  function Value(s: string): nat
    requires forall c <- s :: IsDigit(c)
  {
    if s == [] then 0 else 10 * Value(s[..|s| - 1]) + ValueOf(s[|s| - 1])
  }

  lemma {:induction false} ValueOfDigits(n: nat)
    ensures Value(Digits(n)) == n
  {
    if n < 10 {
      assert Digits(n)[..0] == [];
    } else {
      ValueOfDigits(n / 10);
      var front := Digits(n / 10);
      assert Digits(n)[..|front|] == front;
    }
  }

  predicate IsUpper(c: char) { 'A' <= c <= 'Z' }

  predicate IsLetter(c: char) { IsUpper(c) || 'a' <= c <= 'z' }

  function LowerChar(c: char): char {
    if IsUpper(c) then c - 'A' + 'a' else c
  }

  /** ASCII lower case. */
  function Lower(s: string): string {
    seq(|s|, i requires 0 <= i < |s| => LowerChar(s[i]))
  }

  /** Letters are matched in either case; every other character only by itself. */
  predicate SameLetter(a: char, b: char) {
    a == b || (IsUpper(a) && a as int + 32 == b as int) || (IsUpper(b) && b as int + 32 == a as int)
  }

  /** Lower case identifies exactly the texts that agree up to the case of ASCII letters. */
  lemma LowerFolds(a: string, b: string)
    ensures Lower(a) == Lower(b) <==> |a| == |b| && forall i :: 0 <= i < |a| ==> SameLetter(a[i], b[i])
    ensures Lower(Lower(a)) == Lower(a) && forall i :: 0 <= i < |a| ==> !IsUpper(Lower(a)[i])
  {
    if Lower(a) == Lower(b) {
      assert |a| == |Lower(a)| == |b|;
      forall i | 0 <= i < |a| ensures SameLetter(a[i], b[i]) {
        assert Lower(a)[i] == Lower(b)[i];
      }
    }
  }

  /** A longer numeral for a larger number, and none begins with a zero but that of zero. */
  lemma {:induction false} DigitsGrow(m: nat, n: nat)
    requires m <= n
    ensures |Digits(m)| <= |Digits(n)| && (n > 0 ==> Digits(n)[0] != '0')
  {
    if n >= 10 { DigitsGrow(m / 10, n / 10); }
  }

  /** Ten is the first number of two digits. */
  lemma TenIsBase(d: nat)
    requires d < 10
    ensures Digits(d) == [DigitOf(d)] && Digits(10 + d) == ['1', DigitOf(d)]
    ensures Digits(9) == "9" && Digits(10) == "10"
  {
  }
}
