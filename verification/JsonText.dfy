/** Numbers and quoted strings as they stand in JSON text. */
module JsonText {

  /** The decimal form of an integer. */
  function Decimal(n: int): string
    decreases if n < 0 then 1 - n else n
  {
    if n < 0 then "-" + Decimal(-n)
    else if n < 10 then [('0' as int + n) as char]
    else Decimal(n / 10) + [('0' as int + n % 10) as char]
  }

  /** A quoted string has its two quotes, and escapes make each octet at most six. */
  ghost predicate Quoting(quote: string -> string)
  {
    forall s :: |s| + 2 <= |quote(s)| <= 6 * |s| + 2
  }

  lemma {:induction false} DecimalDigits(n: nat)
    ensures Decimal(n) != "" && forall i :: 0 <= i < |Decimal(n)| ==> '0' <= Decimal(n)[i] <= '9'
  {
    if n >= 10 {
      DecimalDigits(n / 10);
    }
  }

  lemma {:induction false} NaturalsDiffer(m: nat, n: nat)
    requires Decimal(m) == Decimal(n)
    ensures m == n
    decreases m
  {
    var x, y := Decimal(m), Decimal(n);
    LastDigit(m);
    LastDigit(n);
    if m >= 10 && n >= 10 {
      assert x[..|x| - 1] == Decimal(m / 10) && y[..|y| - 1] == Decimal(n / 10);
      NaturalsDiffer(m / 10, n / 10);
    } else if m >= 10 {
      DecimalDigits(m / 10);
    } else if n >= 10 {
      DecimalDigits(n / 10);
    }
  }

  lemma LastDigit(n: nat)
    ensures var d := Decimal(n); d != "" && d[|d| - 1] as int == '0' as int + n % 10
  {
  }

  /** Two numbers with the same digits are the same number. */
  lemma DecimalInjective(m: int, n: int)
    requires Decimal(m) == Decimal(n)
    ensures m == n
  {
    if m < 0 && n < 0 {
      assert Decimal(m)[1..] == Decimal(-m) && Decimal(n)[1..] == Decimal(-n);
      NaturalsDiffer(-m, -n);
    } else if m >= 0 && n >= 0 {
      NaturalsDiffer(m, n);
    } else {
      FirstChar(m);
      FirstChar(n);
    }
  }

  lemma FirstChar(n: int)
    ensures Decimal(n) != "" && (Decimal(n)[0] == '-' <==> n < 0)
  {
    if n >= 0 {
      DecimalDigits(n);
    }
  }

  lemma DecimalSize(n: int)
    requires 0 <= n <= 1_000_000
    ensures |Decimal(n)| <= 7
  {
    DigitsBound(n, 7, 10_000_000);
  }

  lemma {:induction false} DigitsBound(n: int, digits: nat, limit: nat)
    requires 0 <= n < limit && digits >= 1 && limit == Power(digits)
    ensures |Decimal(n)| <= digits
  {
    if n >= 10 {
      DigitsBound(n / 10, digits - 1, Power(digits - 1));
    }
  }

  function Power(digits: nat): nat
  {
    if digits == 0 then 1 else 10 * Power(digits - 1)
  }
}
