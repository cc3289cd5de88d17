/** The number printers of main.c. What uart_putc would send is collected in the returned string. */
module Printer {

  /** The divisors, the 32-bit powers of ten; the 16-bit ones start at index 5. */
  const DV: seq<nat> := [1000000000, 100000000, 10000000, 1000000, 100000, 10000, 1000, 100, 10, 1]

  predicate IsDigit(c: char) { '0' <= c <= '9' }

  function Digit(c: char): nat
    requires IsDigit(c)
  {
    c as int - '0' as int
  }

  /** The number a digit string denotes. */
  function Parse(s: string): nat
    requires forall i :: 0 <= i < |s| ==> IsDigit(s[i])
  {
    if s == [] then 0 else 10 * Parse(s[..|s| - 1]) + Digit(s[|s| - 1])
  }

  /** Digits only, and no leading zero except in "0" itself. */
  ghost predicate Canonical(s: string) {
    s != [] && (forall i :: 0 <= i < |s| ==> IsDigit(s[i])) && (s[0] == '0' ==> |s| == 1)
  }

  lemma {:induction false} ParsePositive(s: string)
    requires Canonical(s) && s[0] != '0'
    ensures Parse(s) >= 1
  {
    if |s| > 1 {
      ParsePositive(s[..|s| - 1]);
    }
  }

  /** A number has one canonical form, so what xtoa prints is determined by parsing back. */
  lemma {:induction false} CanonicalUnique(s: string, t: string)
    requires Canonical(s) && Canonical(t) && Parse(s) == Parse(t)
    ensures s == t
    decreases |s|
  {
    var a, b := s[..|s| - 1], t[..|t| - 1];
    assert s == a + [s[|s| - 1]] && t == b + [t[|t| - 1]];
    if a != [] {
      ParsePositive(a);
    }
    if b != [] {
      ParsePositive(b);
    }
    if a != [] && b != [] {
      CanonicalUnique(a, b);
    }
  }

  lemma ParseAppend(s: string, c: char)
    requires forall i :: 0 <= i < |s| ==> IsDigit(s[i])
    requires IsDigit(c)
    ensures Parse(s + [c]) == 10 * Parse(s) + Digit(c)
  {
    assert (s + [c])[..|s|] == s;
  }

  /** Each divisor is ten times the next; all but the last are even. */
  lemma Divisors(i: nat)
    requires i < 10
    ensures DV[i] >= 1 && (i == 9 <==> DV[i] % 2 == 1) && (i == 9 ==> DV[i] == 1)
    ensures i < 9 ==> DV[i] == 10 * DV[i + 1]
  {
  }

  lemma BelowTen(digit: nat, d: nat, number: nat)
    requires digit * d + d <= number < 10 * d
    ensures digit < 9
  {
    assert (digit + 1) * d < 10 * d;
  }

  /** The inner loop of xtoa: count how often d can be taken from x. */
  method TakeDigit(number: nat, d: nat) returns (c: char, x: nat)
    requires 0 < d && number < 10 * d
    ensures IsDigit(c) && x < d && number == Digit(c) * d + x
  {
    c, x := '0', number;
    while x >= d
      invariant IsDigit(c) && number == Digit(c) * d + x
      decreases x
    {
      BelowTen(Digit(c), d, number);
      c := (c as int + 1) as char;
      x := x - d;
    }
  }

  lemma NextPlace(p: nat, digit: nat, d: nat, x: nat, top: nat, number: nat)
    requires top == digit * d + x && p * (10 * d) + top == number
    ensures (10 * p + digit) * d + x == number
  {
  }

  /** xtoa: decimal output by repeated subtraction of falling powers of ten. */
  method XToA(number: nat, dp: nat) returns (out: string)
    requires (dp == 0 && number < 0x1_0000_0000) || (dp == 5 && number < 0x1_0000)
    ensures Canonical(out) && Parse(out) == number
  {
    out := [];
    if number == 0 {
      return ['0'];
    }
    var x, i := number, dp;
    while x < DV[i]
      invariant dp <= i < 10 && x < 10 * DV[i]
      decreases 10 - i
    {
      Divisors(i);
      i := i + 1;
    }
    var more := true;
    while more
      invariant forall j :: 0 <= j < |out| ==> IsDigit(out[j])
      invariant more ==> i < 10 && x < 10 * DV[i] && Parse(out) * (10 * DV[i]) + x == number
      invariant more && out == [] ==> x >= DV[i]
      invariant out != [] ==> out[0] != '0'
      invariant !more ==> out != [] && Parse(out) == number
      decreases more, 10 - i
    {
      Divisors(i);
      var d := DV[i];
      var c, rest := TakeDigit(x, d);
      ParseAppend(out, c);
      NextPlace(Parse(out), Digit(c), d, rest, x, number);
      assert out == [] && c == '0' ==> x < d;
      assert d == 1 ==> Parse(out + [c]) * d == Parse(out + [c]);
      out := out + [c];
      x := rest;
      i := i + 1;
      more := d % 2 == 0;
      assert more ==> 10 * DV[i] == d;
    }
  }

  // ---------- hexadecimal ----------

  const HEX := "0123456789ABCDEF"

  predicate IsHex(c: char) { '0' <= c <= '9' || 'A' <= c <= 'F' }

  function HexDigit(c: char): nat
    requires IsHex(c)
  {
    if c <= '9' then c as int - '0' as int else c as int - 'A' as int + 10
  }

  /** puth: the digit of the low four bits. */
  function PutH(n: nat): (c: char)
    ensures IsHex(c) && HexDigit(c) == n % 16
  {
    HEX[n % 16]
  }

  /** The four digits of the x format, high nibble first, denote the number. */
  lemma HexRoundTrip(n: nat)
    requires n < 0x1_0000
    ensures HexDigit(PutH(n / 4096)) * 4096 + HexDigit(PutH(n / 256)) * 256
            + HexDigit(PutH(n / 16)) * 16 + HexDigit(PutH(n)) == n
  {
    assert n == n / 16 * 16 + n % 16;
    assert n / 16 == n / 16 / 16 * 16 + n / 16 % 16 && n / 16 / 16 == n / 256;
    assert n / 256 == n / 256 / 16 * 16 + n / 256 % 16 && n / 256 / 16 == n / 4096;
  }
}
