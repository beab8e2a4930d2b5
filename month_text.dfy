/**
 * The text form `YYYY-MM` of a month key, which is what the table's month
 * column holds and what the month selector sorts. Comparing these strings
 * as Python does agrees with the chronological order of the (year, month)
 * pairs the rest of the model uses, and equal strings mean equal months.
 */
module MonthText {
  import opened Text
  import opened Expense

  function Pow10(w: nat): nat {
    if w == 0 then 1 else 10 * Pow10(w - 1)
  }

  function DigitChar(d: int): char
    requires 0 <= d < 10
  {
    ('0' as int + d) as char
  }

  /** The last `w` decimal digits of `n`, padded with leading zeros. */
  function Digits(n: nat, w: nat): (r: string)
    ensures |r| == w
  {
    if w == 0 then [] else Digits(n / 10, w - 1) + [DigitChar(n % 10)]
  }

  /** A valid key printed as a four-digit year, a dash and a two-digit month. */
  function Format(k: MonthKey): (r: string)
    requires 1 <= k.year <= 9999 && 1 <= k.month <= 12
    ensures |r| == 7 && r[4] == '-'
  {
    Digits(k.year, 4) + "-" + Digits(k.month, 2)
  }

  /** Comparing equal-length prefixes first, then what follows them. */
  lemma {:induction false} LexLessAppend(a: string, b: string, c: string, d: string)
    requires |a| == |b|
    ensures LexLess(a + c, b + d) <==> LexLess(a, b) || (a == b && LexLess(c, d))
    decreases |a|
  {
    if a == [] {
      assert a + c == c && b + d == d;
    } else {
      assert (a + c)[0] == a[0] && (b + d)[0] == b[0];
      assert (a + c)[1..] == a[1..] + c && (b + d)[1..] == b[1..] + d;
      LexLessAppend(a[1..], b[1..], c, d);
      assert a == b <==> a[0] == b[0] && a[1..] == b[1..];
    }
  }

  /** Zero-padded numerals of the same width compare as the numbers do. */
  lemma {:induction false} DigitsCompare(n: nat, m: nat, w: nat)
    requires n < Pow10(w) && m < Pow10(w)
    ensures Digits(n, w) == Digits(m, w) <==> n == m
    ensures LexLess(Digits(n, w), Digits(m, w)) <==> n < m
    decreases w
  {
    if w == 0 {
    } else {
      var hn, hm := Digits(n / 10, w - 1), Digits(m / 10, w - 1);
      DigitsCompare(n / 10, m / 10, w - 1);
      var x, y := DigitChar(n % 10), DigitChar(m % 10);
      LexLessAppend(hn, hm, [x], [y]);
      assert LexLess([x], [y]) <==> x < y;
      assert hn + [x] == hm + [y] <==> hn == hm && x == y by {
        if hn + [x] == hm + [y] {
          assert (hn + [x])[..w - 1] == hn && (hm + [y])[..w - 1] == hm;
          assert (hn + [x])[w - 1] == x && (hm + [y])[w - 1] == y;
        }
      }
      assert n == 10 * (n / 10) + n % 10 && m == 10 * (m / 10) + m % 10;
    }
  }

  /** The text order of formatted keys is the chronological order of the keys. */
  lemma FormatOrder(a: MonthKey, b: MonthKey)
    requires 1 <= a.year <= 9999 && 1 <= a.month <= 12
    requires 1 <= b.year <= 9999 && 1 <= b.month <= 12
    ensures LexLess(Format(a), Format(b)) <==> Before(a, b)
    ensures Format(a) == Format(b) <==> a == b
  {
    var ya, yb := Digits(a.year, 4), Digits(b.year, 4);
    var ma, mb := Digits(a.month, 2), Digits(b.month, 2);
    assert Pow10(4) == 10000 && Pow10(2) == 100;
    DigitsCompare(a.year, b.year, 4);
    DigitsCompare(a.month, b.month, 2);
    assert Format(a) == ya + ("-" + ma) && Format(b) == yb + ("-" + mb);
    LexLessAppend(ya, yb, "-" + ma, "-" + mb);
    LexLessAppend("-", "-", ma, mb);
    if Format(a) == Format(b) {
      assert Format(a)[..4] == ya && Format(b)[..4] == yb;
      assert Format(a)[5..] == ma && Format(b)[5..] == mb;
    }
  }
}
