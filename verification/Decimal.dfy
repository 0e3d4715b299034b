/** Decimal rendering of integers (the %d verb) and its inverse on digits. */
module Decimal {
  function Digit(d: nat): (c: char)
    requires d < 10
    ensures IsDigit(c) && c as int - '0' as int == d
  {
    ('0' as int + d) as char
  }

  predicate IsDigit(c: char) { '0' <= c <= '9' }

  predicate AllDigits(s: string) { forall c :: c in s ==> IsDigit(c) }

  function Digits(n: nat): (s: string)
    ensures s != [] && AllDigits(s)
  {
    if n < 10 then [Digit(n)] else Digits(n / 10) + [Digit(n % 10)]
  }

  function Value(s: string): nat
    requires AllDigits(s)
  {
    if s == [] then 0
    else
      var front, c := s[..|s| - 1], s[|s| - 1];
      assert c in s;
      10 * Value(front) + (c as int - '0' as int)
  }

  lemma {:induction false} ValueOfDigits(n: nat)
    ensures Value(Digits(n)) == n
  {
    if n >= 10 {
      ValueOfDigits(n / 10);
      assert Digits(n)[..|Digits(n)| - 1] == Digits(n / 10);
    }
  }

  lemma {:induction false} LeadingZeros(n: nat, s: string)
    requires AllDigits(s)
    ensures AllDigits(Zeros(n) + s) && Value(Zeros(n) + s) == Value(s)
  {
    var t := Zeros(n) + s;
    if s != [] {
      var front := s[..|s| - 1];
      assert t[..|t| - 1] == Zeros(n) + front;
      LeadingZeros(n, front);
    } else if n > 0 {
      assert t[..|t| - 1] == Zeros(n - 1) + [] && Zeros(n) == Zeros(n - 1) + "0";
      LeadingZeros(n - 1, []);
    }
  }

  function Zeros(n: nat): (s: string)
    ensures |s| == n && AllDigits(s)
  {
    seq(n, _ => '0')
  }

  function Render(i: int): string {
    if i < 0 then "-" + Digits(-i) else Digits(i)
  }

  lemma RenderInjective(i: int, j: int)
    requires Render(i) == Render(j)
    ensures i == j
  {
    assert IsDigit(Digits(if i < 0 then -i else i)[0]) && IsDigit(Digits(if j < 0 then -j else j)[0]);
    ValueOfDigits(if i < 0 then -i else i);
    ValueOfDigits(if j < 0 then -j else j);
    if i < 0 && j < 0 {
      assert Render(i)[1..] == Digits(-i) && Render(j)[1..] == Digits(-j);
    }
  }
}
