/** Decimal numerals, their byte order, and 64-bit integers. */
module Digits {
  import opened PathOrder

  predicate IsDigit(c: char) {
    '0' <= c <= '9'
  }

  predicate AllDigits(s: string) {
    forall c <- s :: IsDigit(c)
  }

  function Num(s: string): nat
    requires AllDigits(s)
  {
    if s == "" then 0
    else
      assert s[|s| - 1] in s;
      Num(s[..|s| - 1]) * 10 + (s[|s| - 1] as int - '0' as int)
  }

  function Pow10(w: nat): nat {
    if w == 0 then 1 else 10 * Pow10(w - 1)
  }

  function Numeral(n: nat, w: nat): (s: string)
    ensures |s| == w && AllDigits(s)
  {
    if w == 0 then "" else Numeral(n / 10, w - 1) + [('0' as int + n % 10) as char]
  }

  lemma {:induction false} NumOfNumeral(n: nat, w: nat)
    requires n < Pow10(w)
    ensures Num(Numeral(n, w)) == n
  {
    if w > 0 {
      NumOfNumeral(n / 10, w - 1);
      var s := Numeral(n, w);
      assert s[..|s| - 1] == Numeral(n / 10, w - 1);
    }
  }

  lemma {:induction false} NumeralOfNum(s: string)
    requires AllDigits(s)
    ensures Num(s) < Pow10(|s|) && Numeral(Num(s), |s|) == s
  {
    if s != "" {
      NumeralOfNum(s[..|s| - 1]);
      assert s[|s| - 1] in s;
      assert s == s[..|s| - 1] + [s[|s| - 1]];
    }
  }

  /** Fields of equal width are compared before anything that follows them. */
  lemma {:induction false} FieldDecides(a: string, b: string, s: string, t: string)
    requires |a| == |b|
    ensures Less(a + s, b + t) <==> Less(a, b) || (a == b && Less(s, t))
    ensures a + s == b + t <==> a == b && s == t
  {
    if a == "" {
      assert a + s == s && b + t == t;
    } else {
      assert (a + s)[1..] == a[1..] + s && (b + t)[1..] == b[1..] + t;
      assert a == [a[0]] + a[1..] && b == [b[0]] + b[1..];
      FieldDecides(a[1..], b[1..], s, t);
    }
    Irreflexive(a);
    assert (a + s)[..|a|] == a && (b + t)[..|b|] == b && (a + s)[|a|..] == s && (b + t)[|b|..] == t;
  }

  lemma {:induction false} NumeralsInOrder(m: nat, n: nat, w: nat)
    requires m < Pow10(w) && n < Pow10(w)
    ensures Less(Numeral(m, w), Numeral(n, w)) <==> m < n
    ensures Numeral(m, w) == Numeral(n, w) <==> m == n
  {
    if w > 0 {
      NumeralsInOrder(m / 10, n / 10, w - 1);
      var c, d := [('0' as int + m % 10) as char], [('0' as int + n % 10) as char];
      FieldDecides(Numeral(m / 10, w - 1), Numeral(n / 10, w - 1), c, d);
      assert Less(c, d) <==> m % 10 < n % 10;
    }
  }

  /******* Numerals without leading zeros *******/

  function Decimal(n: nat): (s: string)
    ensures s != "" && AllDigits(s)
  {
    if n < 10 then [('0' as int + n) as char] else Decimal(n / 10) + [('0' as int + n % 10) as char]
  }

  function Number(n: int): string {
    if n < 0 then "-" + Decimal(-n) else Decimal(n)
  }

  lemma {:induction false} NumOfDecimal(n: nat)
    ensures Num(Decimal(n)) == n
  {
    var s := Decimal(n);
    if n < 10 {
      assert s[..|s| - 1] == "";
    } else {
      NumOfDecimal(n / 10);
      assert s[..|s| - 1] == Decimal(n / 10);
    }
  }

  lemma SignFirst(n: int)
    ensures Number(n) != "" && (Number(n)[0] == '-' <==> n < 0)
  {
    if n >= 0 { assert Decimal(n)[0] in Decimal(n); }
  }

  lemma NumbersDiffer(m: int, n: int)
    requires Number(m) == Number(n)
    ensures m == n
  {
    SignFirst(m);
    SignFirst(n);
    if m < 0 {
      assert Number(m)[1..] == Decimal(-m) && Number(n)[1..] == Decimal(-n);
      NumOfDecimal(-m);
      NumOfDecimal(-n);
    } else {
      NumOfDecimal(m);
      NumOfDecimal(n);
    }
  }

  /******* Machine integers *******/

  const TWO_63: int := 0x8000_0000_0000_0000

  type Int64 = n: int | -TWO_63 <= n < TWO_63

  /** Arithmetic on 64-bit integers wraps around. */
  function Wrap(n: int): (r: Int64)
    ensures -TWO_63 <= n < TWO_63 ==> r == n
  {
    (n + TWO_63) % (2 * TWO_63) - TWO_63
  }
}
