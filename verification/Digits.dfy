/** Positional notation: printing numbers as digit strings and reading them back. */
module Digits {
  const DIGITS := "0123456789abcdef"

  datatype Base = Dec | Hex {
    function Radix(): nat { if Dec? then 10 else 16 }
    function Shift(v: nat): nat { if Dec? then 10 * v else 16 * v }
    function Quotient(n: nat): nat { if Dec? then n / 10 else n / 16 }
    function Remainder(n: nat): nat { if Dec? then n % 10 else n % 16 }
  }

  /** The value of a digit in either case, or 16 for any other character. */
  function DigitValue(c: char): (d: nat)
    ensures d <= 16
  {
    if '0' <= c <= '9' then (c as int - '0' as int) as nat
    else if 'a' <= c <= 'f' then (c as int - 'a' as int + 10) as nat
    else if 'A' <= c <= 'F' then (c as int - 'A' as int + 10) as nat
    else 16
  }

  predicate IsDigits(s: string, base: Base) {
    forall i :: 0 <= i < |s| ==> DigitValue(s[i]) < base.Radix()
  }

  function Value(s: string, base: Base): nat {
    if s == [] then 0 else base.Shift(Value(s[..|s| - 1], base)) + DigitValue(s[|s| - 1])
  }

  function Print(n: nat, base: Base): string {
    if n < base.Radix() then [DIGITS[n]] else Print(base.Quotient(n), base) + [DIGITS[base.Remainder(n)]]
  }

  predicate IsLower(c: char) {
    !('A' <= c <= 'F')
  }

  /** Lower-case digits without a superfluous leading zero. */
  predicate Canonical(s: string, base: Base) {
    |s| > 0 && IsDigits(s, base) && (forall i :: 0 <= i < |s| ==> IsLower(s[i])) && (s[0] == '0' ==> |s| == 1)
  }

  lemma DigitRoundTrip(d: nat)
    requires d < 16
    ensures DigitValue(DIGITS[d]) == d && IsLower(DIGITS[d])
  {
  }

  lemma DigitOf(c: char)
    requires DigitValue(c) < 16 && IsLower(c)
    ensures DIGITS[DigitValue(c)] == c
  {
  }

  lemma ValuePush(s: string, c: char, base: Base)
    ensures Value(s + [c], base) == base.Shift(Value(s, base)) + DigitValue(c)
  {
    assert (s + [c])[..|s|] == s;
  }

  lemma CanonicalPush(s: string, c: char, base: Base)
    requires Canonical(s, base) && s[0] != '0' && DigitValue(c) < base.Radix() && IsLower(c)
    ensures Canonical(s + [c], base) && (s + [c])[0] != '0'
  {
  }

  lemma CanonicalDigit(d: nat, base: Base)
    requires d < base.Radix()
    ensures Canonical([DIGITS[d]], base) && Value([DIGITS[d]], base) == d && (d > 0 ==> DIGITS[d] != '0')
  {
    DigitRoundTrip(d);
    ValuePush([], DIGITS[d], base);
    assert [] + [DIGITS[d]] == [DIGITS[d]];
  }

  /** Printing is canonical, and reading it back gives the number. */
  lemma {:induction false} PrintedValue(n: nat, base: Base)
    ensures Canonical(Print(n, base), base) && Value(Print(n, base), base) == n
    ensures n > 0 ==> Print(n, base)[0] != '0'
  {
    if n < base.Radix() {
      CanonicalDigit(n, base);
    } else {
      var q, r := base.Quotient(n), base.Remainder(n);
      PrintedValue(q, base);
      DigitRoundTrip(r);
      CanonicalPush(Print(q, base), DIGITS[r], base);
      ValuePush(Print(q, base), DIGITS[r], base);
    }
  }

  lemma DivMod(v: nat, d: nat, base: Base)
    requires d < base.Radix()
    ensures base.Quotient(base.Shift(v) + d) == v && base.Remainder(base.Shift(v) + d) == d
  {
  }

  lemma CanonicalPrefix(s: string, base: Base)
    requires Canonical(s, base) && |s| > 1
    ensures Canonical(s[..|s| - 1], base) && DigitValue(s[0]) > 0
  {
  }

  lemma {:induction false} PositiveValue(s: string, base: Base)
    requires |s| > 0 && IsDigits(s, base) && DigitValue(s[0]) > 0
    ensures Value(s, base) > 0
  {
    if |s| > 1 {
      PositiveValue(s[..|s| - 1], base);
    }
  }

  /** A single digit is exactly what lies below the radix. */
  lemma OneDigit(s: string, base: Base)
    requires Canonical(s, base)
    ensures |s| == 1 <==> Value(s, base) < base.Radix()
  {
    if |s| > 1 {
      CanonicalPrefix(s, base);
      PositiveValue(s[..|s| - 1], base);
    }
  }

  lemma SameDigit(c: char, d: char)
    requires DigitValue(c) == DigitValue(d) < 16 && IsLower(c) && IsLower(d)
    ensures c == d
  {
    DigitOf(c);
    DigitOf(d);
  }

  /** Different canonical strings have different values. */
  lemma {:induction false} ValueInjective(s: string, t: string, base: Base)
    requires Canonical(s, base) && Canonical(t, base) && Value(s, base) == Value(t, base)
    ensures s == t
  {
    OneDigit(s, base);
    OneDigit(t, base);
    var c, d := s[|s| - 1], t[|t| - 1];
    if |s| == 1 {
      SameDigit(c, d);
    } else {
      CanonicalPrefix(s, base);
      CanonicalPrefix(t, base);
      DivMod(Value(s[..|s| - 1], base), DigitValue(c), base);
      DivMod(Value(t[..|t| - 1], base), DigitValue(d), base);
      ValueInjective(s[..|s| - 1], t[..|t| - 1], base);
      SameDigit(c, d);
      assert s == s[..|s| - 1] + [c] && t == t[..|t| - 1] + [d];
    }
  }

  /** A canonical string is the printed form of its value. */
  lemma CanonicalIsPrinted(s: string, base: Base)
    requires Canonical(s, base)
    ensures s == Print(Value(s, base), base)
  {
    PrintedValue(Value(s, base), base);
    ValueInjective(s, Print(Value(s, base), base), base);
  }

  lemma PrintInjective(m: nat, n: nat, base: Base)
    requires Print(m, base) == Print(n, base)
    ensures m == n
  {
    PrintedValue(m, base);
    PrintedValue(n, base);
  }

  /** 16 to the power k. */
  function Power16(k: nat): nat {
    if k == 0 then 1 else 16 * Power16(k - 1)
  }

  lemma {:induction false} ValueAtLeast(s: string)
    requires |s| > 0 && IsDigits(s, Hex) && DigitValue(s[0]) > 0
    ensures Value(s, Hex) >= Power16(|s| - 1)
  {
    if |s| > 1 {
      ValueAtLeast(s[..|s| - 1]);
    }
  }
}
