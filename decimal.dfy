/**
 * Decimal text of non-negative integers and the chunk-key construction
 * `numAppendNum(id, num) = parseInt(id.toString() + num)`.
 */
module Decimal {

  function Pow10(k: nat): (r: nat)
    ensures r >= 1
  {
    if k == 0 then 1 else 10 * Pow10(k - 1)
  }

  predicate IsDigit(c: char)
  {
    '0' <= c <= '9'
  }

  predicate AllDigits(s: string)
  {
    forall i :: 0 <= i < |s| ==> IsDigit(s[i])
  }

  function DigitChar(d: nat): (c: char)
    requires d < 10
    ensures IsDigit(c)
  {
    ('0' as int + d) as char
  }

  function DigitValue(c: char): (d: nat)
    requires IsDigit(c)
    ensures d < 10 && DigitChar(d) == c
  {
    c as int - '0' as int
  }

  /** Number of decimal digits in the shortest text of `n` ("0" has one) */
  function DigitCount(n: nat): (k: nat)
    ensures k >= 1
  {
    if n < 10 then 1 else 1 + DigitCount(n / 10)
  }

  /** `Number.prototype.toString()` of a non-negative integer: no sign, no leading zero */
  function ToDecimal(n: nat): (s: string)
    ensures |s| == DigitCount(n) && AllDigits(s)
    ensures s[0] == '0' ==> n == 0
  {
    if n < 10 then [DigitChar(n)] else ToDecimal(n / 10) + [DigitChar(n % 10)]
  }

  /** `parseInt` of a string of decimal digits (leading zeros are ignored) */
  function ParseDecimal(s: string): (n: nat)
    requires AllDigits(s)
  {
    if s == [] then 0 else 10 * ParseDecimal(s[..|s| - 1]) + DigitValue(s[|s| - 1])
  }

  lemma DigitsConcat(a: string, b: string)
    requires AllDigits(a) && AllDigits(b)
    ensures AllDigits(a + b)
  {
    forall i | 0 <= i < |a + b| ensures IsDigit((a + b)[i]) {
      if i < |a| { assert (a + b)[i] == a[i]; } else { assert (a + b)[i] == b[i - |a|]; }
    }
  }

  /** Parsing a concatenation shifts the first part left by the length of the second */
  lemma {:induction false} ParseConcat(a: string, b: string)
    requires AllDigits(a) && AllDigits(b)
    ensures AllDigits(a + b)
    ensures ParseDecimal(a + b) == ParseDecimal(a) * Pow10(|b|) + ParseDecimal(b)
    decreases |b|
  {
    DigitsConcat(a, b);
    if b == [] {
      assert a + b == a;
    } else {
      var b' := b[..|b| - 1];
      var c := b[|b| - 1];
      assert (a + b)[..|a + b| - 1] == a + b';
      assert (a + b)[|a + b| - 1] == c;
      ParseConcat(a, b');
      assert Pow10(|b|) == 10 * Pow10(|b'|);
      ShiftDigit(ParseDecimal(a), Pow10(|b'|), ParseDecimal(b'), DigitValue(c));
    }
  }

  lemma ShiftDigit(x: nat, p: nat, y: nat, v: nat)
    ensures 10 * (x * p + y) + v == x * (10 * p) + (10 * y + v)
  {
  }

  /** `parseInt(n.toString()) == n` */
  lemma {:induction false} ParseToDecimal(n: nat)
    ensures ParseDecimal(ToDecimal(n)) == n
  {
    var s := ToDecimal(n);
    if n < 10 {
      assert s[..0] == [];
    } else {
      assert s[..|s| - 1] == ToDecimal(n / 10);
      ParseToDecimal(n / 10);
    }
  }

  /** The digit count brackets `n` between consecutive powers of ten */
  lemma {:induction false} DigitCountBounds(n: nat)
    ensures n < Pow10(DigitCount(n))
    ensures DigitCount(n) > 1 ==> Pow10(DigitCount(n) - 1) <= n
  {
    if n >= 10 {
      DigitCountBounds(n / 10);
    }
  }

  lemma {:induction false} Pow10Monotonic(i: nat, j: nat)
    requires i <= j
    ensures Pow10(i) <= Pow10(j)
    ensures i < j ==> 10 * Pow10(i) <= Pow10(j)
    decreases j
  {
    if i < j {
      Pow10Monotonic(i, j - 1);
    }
  }

  /** Key of chunk `num` of task `id`: the decimal texts of both, concatenated and parsed back */
  function NumAppendNum(id: nat, num: nat): nat
  {
    DigitsConcat(ToDecimal(id), ToDecimal(num));
    ParseDecimal(ToDecimal(id) + ToDecimal(num))
  }

  /** The key is `id` shifted left by the digit count of `num`, plus `num` */
  lemma NumAppendNumValue(id: nat, num: nat)
    ensures NumAppendNum(id, num) == id * Pow10(DigitCount(num)) + num
  {
    ParseConcat(ToDecimal(id), ToDecimal(num));
    ParseToDecimal(id);
    ParseToDecimal(num);
  }

  /** A single-digit chunk index is appended as a last decimal digit */
  lemma NumAppendNumDigit(id: nat, num: nat)
    requires num < 10
    ensures NumAppendNum(id, num) == 10 * id + num
  {
    NumAppendNumValue(id, num);
  }

  /** Within one task, distinct chunk indices give distinct keys */
  lemma NumAppendNumInjective(id: nat, a: nat, b: nat)
    requires a != b
    ensures NumAppendNum(id, a) != NumAppendNum(id, b)
  {
    NumAppendNumValue(id, a);
    NumAppendNumValue(id, b);
    var da, db := DigitCount(a), DigitCount(b);
    DigitCountBounds(a);
    DigitCountBounds(b);
    if da < db {
      Below(id, a, da, b, db);
    } else if db < da {
      Below(id, b, db, a, da);
    }
  }

  lemma Below(id: nat, x: nat, dx: nat, y: nat, dy: nat)
    requires 1 <= dx < dy
    requires x < Pow10(dx) && Pow10(dy - 1) <= y
    ensures id * Pow10(dx) + x < id * Pow10(dy) + y
  {
    Pow10Monotonic(dx, dy);
    Pow10Monotonic(dx, dy - 1);
    assert id * Pow10(dx) <= id * Pow10(dy) by {
      MulMonotonic(id, Pow10(dx), Pow10(dy));
    }
  }

  lemma MulMonotonic(a: nat, x: nat, y: nat)
    requires x <= y
    ensures a * x <= a * y
  {
  }

  /** Keys of different tasks can coincide: task 1 chunk 23 and task 12 chunk 3 share key 123 */
  lemma NumAppendNumCollides()
    ensures NumAppendNum(1, 23) == NumAppendNum(12, 3) == 123
  {
    NumAppendNumValue(1, 23);
    NumAppendNumValue(12, 3);
  }
}
