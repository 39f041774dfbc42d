/** Text order and decimal text. */
module Text {

  /** Lexicographic order, in which Python and SQL sort text. */
  predicate TextLe(a: string, b: string) {
    a == [] || (b != [] && (a[0] < b[0] || (a[0] == b[0] && TextLe(a[1..], b[1..]))))
  }

  predicate TextLess(a: string, b: string) {
    a != b && TextLe(a, b)
  }

  lemma {:induction false} TextTotal(a: string, b: string)
    ensures TextLe(a, b) || TextLe(b, a)
  {
    if a != [] && b != [] {
      TextTotal(a[1..], b[1..]);
    }
  }

  lemma {:induction false} TextTransitive(a: string, b: string, c: string)
    requires TextLe(a, b) && TextLe(b, c)
    ensures TextLe(a, c)
  {
    if a != [] && b != [] && c != [] && a[0] == b[0] == c[0] {
      TextTransitive(a[1..], b[1..], c[1..]);
    }
  }

  lemma {:induction false} TextAntisymmetric(a: string, b: string)
    requires TextLe(a, b) && TextLe(b, a)
    ensures a == b
  {
    if a != [] {
      TextAntisymmetric(a[1..], b[1..]);
      assert a == [a[0]] + a[1..] && b == [b[0]] + b[1..];
    }
  }

  /** Texts of equal length compare by their leading parts first, then by the last character. */
  lemma {:induction false} TextLastCharacter(a: string, b: string, x: char, y: char)
    requires |a| == |b|
    ensures TextLess(a + [x], b + [y]) <==> TextLess(a, b) || (a == b && x < y)
  {
    if a != [] {
      assert (a + [x])[1..] == a[1..] + [x] && (b + [y])[1..] == b[1..] + [y];
      assert a == [a[0]] + a[1..] && b == [b[0]] + b[1..];
      TextLastCharacter(a[1..], b[1..], x, y);
      if a[0] == b[0] {
        assert a == b <==> a[1..] == b[1..];
        assert a + [x] == b + [y] <==> a[1..] + [x] == b[1..] + [y];
      } else {
        assert (a + [x])[0] != (b + [y])[0];
      }
    }
  }

  const DIGITS := "0123456789"

  function Digit(d: nat): char
    requires d < 10
  {
    DIGITS[d]
  }

  /** The shortest decimal text of a number. */
  function Decimal(n: nat): string {
    if n < 10 then [Digit(n)] else Decimal(n / 10) + [Digit(n % 10)]
  }

  /** The last `width` decimal digits of a number, zero-padded. */
  function FixedWidth(n: nat, width: nat): string {
    if width == 0 then [] else FixedWidth(n / 10, width - 1) + [Digit(n % 10)]
  }

  function Zeros(count: nat): string {
    seq(count, _ => '0')
  }

  /** Decimal text padded with zeros to at least `width` characters. */
  function ZeroPadded(n: nat, width: nat): string {
    var text := Decimal(n);
    if |text| < width then Zeros(width - |text|) + text else text
  }

  function PowerOfTen(k: nat): nat {
    if k == 0 then 1 else 10 * PowerOfTen(k - 1)
  }

  function DigitValue(c: char): nat {
    if c == '1' then 1 else if c == '2' then 2 else if c == '3' then 3 else if c == '4' then 4
    else if c == '5' then 5 else if c == '6' then 6 else if c == '7' then 7 else if c == '8' then 8
    else if c == '9' then 9 else 0
  }

  /** The number a digit text denotes. */
  function ParseNat(text: string): nat {
    if text == [] then 0 else ParseNat(text[..|text| - 1]) * 10 + DigitValue(text[|text| - 1])
  }

  lemma DigitRoundTrip(d: nat)
    requires d < 10
    ensures DigitValue(Digit(d)) == d
  {
  }

  lemma DigitOrder(d: nat, e: nat)
    requires d < 10 && e < 10
    ensures d < e <==> Digit(d) < Digit(e)
  {
  }

  lemma {:induction false} FixedWidthLength(n: nat, width: nat)
    ensures |FixedWidth(n, width)| == width
  {
    if width > 0 {
      FixedWidthLength(n / 10, width - 1);
    }
  }

  lemma {:induction false} DecimalLength(n: nat, width: nat)
    requires width > 0
    ensures |Decimal(n)| <= width <==> n < PowerOfTen(width)
  {
    if n >= 10 && width > 1 {
      DecimalLength(n / 10, width - 1);
    } else if n >= 10 {
      assert |Decimal(n / 10)| >= 1;
      assert PowerOfTen(1) == 10 * PowerOfTen(0) == 10;
    } else {
      TenAtLeast(width);
    }
  }

  lemma {:induction false} TenAtLeast(width: nat)
    ensures PowerOfTen(width) >= 1
    ensures width > 0 ==> PowerOfTen(width) >= 10
  {
    if width > 0 {
      TenAtLeast(width - 1);
    }
  }

  lemma {:induction false} ZeroWidth(width: nat)
    ensures FixedWidth(0, width) == Zeros(width)
  {
    if width > 0 {
      ZeroWidth(width - 1);
      assert Zeros(width) == Zeros(width - 1) + ['0'];
    }
  }

  /** A number that fits is padded to exactly its fixed-width form. */
  lemma {:induction false} PaddedIsFixedWidth(n: nat, width: nat)
    requires 0 < width && n < PowerOfTen(width)
    ensures ZeroPadded(n, width) == FixedWidth(n, width)
  {
    DecimalLength(n, width);
    if n < 10 {
      ZeroWidth(width - 1);
      assert ZeroPadded(n, width) == Zeros(width - 1) + [Digit(n)];
    } else {
      var front := Decimal(n / 10);
      assert PowerOfTen(width) == 10 * PowerOfTen(width - 1);
      assert width > 1 by {
        assert PowerOfTen(1) == 10 * PowerOfTen(0) == 10;
      }
      PaddedIsFixedWidth(n / 10, width - 1);
      DecimalLength(n / 10, width - 1);
      if |front| < width - 1 {
        assert Zeros(width - |front| - 1) + (front + [Digit(n % 10)]) == (Zeros(width - |front| - 1) + front)
               + [Digit(n % 10)];
      } else {
        assert ZeroPadded(n / 10, width - 1) == front;
      }
    }
  }

  /** Fixed-width decimal text sorts like the numbers it shows. */
  lemma {:induction false} FixedWidthOrder(n: nat, m: nat, width: nat)
    requires n < PowerOfTen(width) && m < PowerOfTen(width)
    ensures TextLess(FixedWidth(n, width), FixedWidth(m, width)) <==> n < m
    ensures FixedWidth(n, width) == FixedWidth(m, width) <==> n == m
  {
    if width > 0 {
      assert PowerOfTen(width) == 10 * PowerOfTen(width - 1);
      var a, b := FixedWidth(n / 10, width - 1), FixedWidth(m / 10, width - 1);
      FixedWidthOrder(n / 10, m / 10, width - 1);
      FixedWidthLength(n / 10, width - 1);
      FixedWidthLength(m / 10, width - 1);
      TextLastCharacter(a, b, Digit(n % 10), Digit(m % 10));
      DigitOrder(n % 10, m % 10);
      DigitOrder(m % 10, n % 10);
      assert n == n / 10 * 10 + n % 10 && m == m / 10 * 10 + m % 10;
      LastDigitEquality(a, b, Digit(n % 10), Digit(m % 10));
    }
  }

  lemma LastDigitEquality(a: string, b: string, x: char, y: char)
    requires |a| == |b|
    ensures a + [x] == b + [y] <==> a == b && x == y
  {
    if a + [x] == b + [y] {
      assert a == (a + [x])[..|a|] == (b + [y])[..|b|] == b;
      assert x == (a + [x])[|a|] == (b + [y])[|b|] == y;
    }
  }

  /** Reading fixed-width text back gives the number. */
  lemma {:induction false} FixedWidthRoundTrip(n: nat, width: nat)
    requires n < PowerOfTen(width)
    ensures ParseNat(FixedWidth(n, width)) == n
  {
    if width > 0 {
      FixedWidthRoundTrip(n / 10, width - 1);
      var front := FixedWidth(n / 10, width - 1);
      assert (front + [Digit(n % 10)])[..|front|] == front;
      DigitRoundTrip(n % 10);
    }
  }

  lemma {:induction false} DecimalRoundTrip(n: nat)
    ensures ParseNat(Decimal(n)) == n
  {
    DigitRoundTrip(n % 10);
    if n < 10 {
      assert [Digit(n)][..0] == [];
      assert ParseNat([]) == 0;
    } else {
      DecimalRoundTrip(n / 10);
      var front := Decimal(n / 10);
      assert (front + [Digit(n % 10)])[..|front|] == front;
    }
  }

  /**
   * Zero-padded text orders every pair of numbers up to `limit` as numbers exactly when `limit` still fits the
   * padded width.
   */
  lemma PaddedOrderIffFits(limit: nat, width: nat)
    requires 0 < width
    ensures (forall n: nat, m: nat :: n < m <= limit ==> TextLess(ZeroPadded(n, width), ZeroPadded(m, width)))
            <==> limit < PowerOfTen(width)
  {
    hide TextLess, ZeroPadded, FixedWidth;
    if limit < PowerOfTen(width) {
      forall n: nat, m: nat | n < m <= limit
        ensures TextLess(ZeroPadded(n, width), ZeroPadded(m, width))
      {
        PaddedIsFixedWidth(n, width);
        PaddedIsFixedWidth(m, width);
        FixedWidthOrder(n, m, width);
      }
    } else {
      var m := PowerOfTen(width);
      TenAtLeast(width);
      FirstOverflow(width);
      assert m - 1 < m <= limit && !TextLess(ZeroPadded(m - 1, width), ZeroPadded(m, width));
    }
  }

  lemma {:induction false} PowerFirstDigit(width: nat)
    ensures Decimal(PowerOfTen(width))[0] == '1'
  {
    TenAtLeast(width);
    if width > 0 {
      PowerFirstDigit(width - 1);
      assert PowerOfTen(width) / 10 == PowerOfTen(width - 1);
      TenAtLeast(width - 1);
      assert |Decimal(PowerOfTen(width - 1))| > 0;
    }
  }

  lemma {:induction false} NinesFirstDigit(width: nat)
    requires width > 0
    ensures PowerOfTen(width) >= 10
    ensures FixedWidth(PowerOfTen(width) - 1, width)[0] == '9'
  {
    TenAtLeast(width);
    FixedWidthLength(PowerOfTen(width) - 1, width);
    if width == 1 {
      assert PowerOfTen(1) == 10 * PowerOfTen(0) == 10;
      assert FixedWidth(9, 1) == FixedWidth(0, 0) + [Digit(9)];
    } else {
      NinesFirstDigit(width - 1);
      var k := PowerOfTen(width - 1);
      assert (10 * k - 1) / 10 == k - 1;
      FixedWidthLength(k - 1, width - 1);
    }
  }

  lemma FirstOverflow(width: nat)
    requires width > 0
    ensures PowerOfTen(width) >= 10
    ensures !TextLess(ZeroPadded(PowerOfTen(width) - 1, width), ZeroPadded(PowerOfTen(width), width))
  {
    hide PowerOfTen, Decimal, FixedWidth, Zeros;
    TenAtLeast(width);
    var m := PowerOfTen(width);
    PaddedIsFixedWidth(m - 1, width);
    FixedWidthLength(m - 1, width);
    NinesFirstDigit(width);
    PowerFirstDigit(width);
    DecimalLength(m, width);
  }
}
