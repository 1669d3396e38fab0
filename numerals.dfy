/**
 * Text of a natural number in base 10 (`str(n)`) or base 16 (`hex(n)` after
 * its "0x" prefix), lowercase digits, most significant first, no leading zero.
 */
module Numerals {

  const Alphabet: string := "0123456789abcdef"

  predicate ValidBase(base: nat)
  {
    2 <= base <= 16
  }

  function DigitChar(d: nat): (c: char)
    requires d < 16
  {
    Alphabet[d]
  }

  /** The value of a digit character, 16 for a character that is not one. */
  function DigitValue(c: char): (v: nat)
    ensures v <= 16
    ensures v < 16 ==> DigitChar(v) == c
  {
    if '0' <= c <= '9' then (c - '0') as nat
    else if 'a' <= c <= 'f' then (c - 'a') as nat + 10
    else 16
  }

  /** Every character of `s` is a digit below `base`. */
  predicate IsDigits(s: string, base: nat)
  {
    forall i :: 0 <= i < |s| ==> DigitValue(s[i]) < base
  }

  /** The digits of `n` in `base`. */
  function ToBase(n: nat, base: nat): (s: string)
    requires ValidBase(base)
    ensures |s| >= 1
    ensures IsDigits(s, base)
    decreases n
  {
    if n < base then
      DigitRoundTrip(n);
      [DigitChar(n)]
    else
      var prefix, d := ToBase(n / base, base), n % base;
      DigitRoundTrip(d);
      assert forall i :: 0 <= i < |prefix| ==> (prefix + [DigitChar(d)])[i] == prefix[i];
      prefix + [DigitChar(d)]
  }

  /** The text has no leading zero, except for zero itself, which is "0". */
  lemma {:induction false} ToBaseNoLeadingZero(n: nat, base: nat)
    requires ValidBase(base)
    ensures n == 0 ==> ToBase(n, base) == "0"
    ensures n > 0 ==> ToBase(n, base)[0] != '0'
    decreases n
  {
    if n < base {
      DigitRoundTrip(n);
      assert DigitValue('0') == 0;
    } else {
      assert n / base >= 1 by { DivModSplit(n, base); }
      ToBaseNoLeadingZero(n / base, base);
      assert ToBase(n, base)[0] == ToBase(n / base, base)[0];
    }
  }

  /** The value of a digit string read in `base`. */
  function FromBase(s: string, base: nat): (n: nat)
    requires ValidBase(base)
    requires IsDigits(s, base)
  {
    if s == [] then 0
    else FromBase(s[..|s| - 1], base) * base + DigitValue(s[|s| - 1])
  }

  lemma DigitRoundTrip(d: nat)
    requires d < 16
    ensures DigitValue(DigitChar(d)) == d
  {
  }

  /** Reading back the digits gives the number: the text is a faithful encoding. */
  lemma {:induction false} ToBaseRoundTrip(n: nat, base: nat)
    requires ValidBase(base)
    ensures FromBase(ToBase(n, base), base) == n
    decreases n
  {
    if n < base {
      DigitRoundTrip(n);
      assert ToBase(n, base)[..0] == [];
    } else {
      ToBaseRoundTrip(n / base, base);
      AppendDigit(n, base);
    }
  }

  /** One step of the round trip: the last digit of `n` adds `n % base` to `base` times the value of the rest. */
  lemma AppendDigit(n: nat, base: nat)
    requires ValidBase(base) && n >= base
    requires FromBase(ToBase(n / base, base), base) == n / base
    ensures FromBase(ToBase(n, base), base) == n
  {
    var q, d := n / base, n % base;
    var p := ToBase(q, base);
    DigitRoundTrip(d);
    FromBaseSnoc(p, DigitChar(d), base);
    DivModSplit(n, base);
    assert ToBase(n, base) == p + [DigitChar(d)];
  }

  lemma DivModSplit(n: nat, base: nat)
    requires ValidBase(base)
    ensures (n / base) * base + n % base == n
  {
  }

  /** Appending a digit shifts the value by one place. */
  lemma FromBaseSnoc(p: string, c: char, base: nat)
    requires ValidBase(base) && IsDigits(p, base) && DigitValue(c) < base
    ensures IsDigits(p + [c], base)
    ensures FromBase(p + [c], base) == FromBase(p, base) * base + DigitValue(c)
  {
    assert (p + [c])[..|p|] == p;
  }

  function Pow(base: nat, k: nat): (p: nat)
  {
    if k == 0 then 1 else base * Pow(base, k - 1)
  }

  /** A number from `base^(k-1)` up to `base^k - 1` has exactly `k` digits. */
  lemma {:induction false} ToBaseLength(n: nat, base: nat, k: nat)
    requires ValidBase(base) && k >= 1
    requires Pow(base, k - 1) <= n < Pow(base, k)
    ensures |ToBase(n, base)| == k
    decreases k
  {
    if k == 1 {
      assert Pow(base, 1) == base;
    } else {
      assert Pow(base, k - 1) == base * Pow(base, k - 2);
      assert Pow(base, k) == base * Pow(base, k - 1);
      assert Pow(base, k - 1) >= base by { PowAtLeastBase(base, k - 1); }
      assert Pow(base, k - 2) <= n / base < Pow(base, k - 1) by {
        DivBounds(n, base, Pow(base, k - 2));
      }
      ToBaseLength(n / base, base, k - 1);
    }
  }

  lemma {:induction false} PowAtLeastBase(base: nat, k: nat)
    requires ValidBase(base) && k >= 1
    ensures Pow(base, k) >= base
    decreases k
  {
    if k > 1 {
      PowAtLeastBase(base, k - 1);
    }
  }

  lemma DivBounds(n: nat, base: nat, p: nat)
    requires ValidBase(base)
    requires base * p <= n < base * (base * p)
    ensures p <= n / base < base * p
  {
  }
}
