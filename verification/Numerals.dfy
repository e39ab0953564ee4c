/** Numbers in text (src/net/strict_conversions.cc). */
module Numerals {
  import opened Options

  // The bases that occur: decimal and hexadecimal.
  type Base = b: nat | b == 10 || b == 16 witness 10

  // ---------------------------------------------------------------- writing

  const SMALL_DIGITS := "0123456789abcdef"
  const CAPITAL_DIGITS := "0123456789ABCDEF"

  // s is n written in that base. Letters may be small or capital, and there may be leading zeros.
  predicate Written(s: string, n: nat, base: Base)
  {
    && s != ""
    && s[|s| - 1] in {SMALL_DIGITS[n % base], CAPITAL_DIGITS[n % base]}
    && if |s| == 1 then n < base else Written(s[..|s| - 1], n / base, base)
  }

  // The usual way to write n.
  function Numeral(n: nat, base: Base): (s: string)
    ensures Written(s, n, base)
  {
    Divided(n, n / base, n % base, base);
    if n < base then [SMALL_DIGITS[n]] else Numeral(n / base, base) + [SMALL_DIGITS[n % base]]
  }

  // ---------------------------------------------------------------- reading

  function Digit(c: char): Option<nat> {
    if '0' <= c <= '9' then Some((c - '0') as nat)
    else if 'a' <= c <= 'f' then Some(10 + (c - 'a') as nat)
    else if 'A' <= c <= 'F' then Some(10 + (c - 'A') as nat)
    else None
  }

  function Value(s: string, base: Base): Option<nat> {
    if s == "" then Some(0)
    else
      var high, low := Value(s[..|s| - 1], base), Digit(s[|s| - 1]);
      if high.Some? && low.Some? && low.value < base then Some(base * high.value + low.value) else None
  }

  // strict_atoi for plain digits: nothing else may be there, and the number has to fit a signed long.
  function StrictAtoi(s: string, base: Base): Option<nat> {
    if s == "" then None
    else match Value(s, base)
      case Some(n) => if n < 0x8000_0000_0000_0000 then Some(n) else None
      case None => None
  }

  // ---------------------------------------------------------------- reading is the inverse of writing

  lemma DigitIff(c: char, d: nat)
    requires d < 16
    ensures Digit(c) == Some(d) <==> c in {SMALL_DIGITS[d], CAPITAL_DIGITS[d]}
  {
    if d < 10 {
      assert SMALL_DIGITS[d] == CAPITAL_DIGITS[d] == '0' + d as char;
    } else {
      assert SMALL_DIGITS[d] == 'a' + (d - 10) as char && CAPITAL_DIGITS[d] == 'A' + (d - 10) as char;
    }
  }

  lemma Divided(n: nat, high: nat, low: nat, base: Base)
    requires low < base
    ensures n == base * high + low <==> n / base == high && n % base == low
    ensures n >= base ==> n / base < n
    ensures n < base ==> n / base == 0 && n % base == n
  {
    if base == 10 {
      assert n == 10 * (n / 10) + n % 10;
    } else {
      assert n == 16 * (n / 16) + n % 16;
    }
  }

  lemma {:induction false} ValueIff(s: string, n: nat, base: Base)
    requires s != ""
    ensures Value(s, base) == Some(n) <==> Written(s, n, base)
  {
    hide Digit;
    var front, c := s[..|s| - 1], s[|s| - 1];
    DigitIff(c, n % base);
    if front == "" {
      if Digit(c).Some? && Digit(c).value < base { Divided(n, 0, Digit(c).value, base); }
    } else {
      ValueIff(front, n / base, base);
      if Digit(c).Some? && Digit(c).value < base && Value(front, base).Some? {
        Divided(n, Value(front, base).value, Digit(c).value, base);
      }
    }
  }

  /** A string is read as n just when it is n written out, and n fits. */
  lemma AtoiIff(s: string, n: nat, base: Base)
    ensures StrictAtoi(s, base) == Some(n) <==> Written(s, n, base) && n < 0x8000_0000_0000_0000
  {
    hide Value;
    if s != "" {
      ValueIff(s, n, base);
    }
  }

  function Power(base: nat, k: nat): nat { if k == 0 then 1 else base * Power(base, k - 1) }

  lemma Regrouped(base: Base, d: nat, p: nat, high: nat)
    ensures base * (d * p + high) == d * (base * p) + base * high
  {
    assert base * (d * p) == d * (base * p);
  }

  // The digit in front counts most: it stands for itself times the power of the base for what follows it.
  lemma {:induction false} LeadingDigit(c: char, s: string, base: Base)
    requires Value(s, base).Some? && Digit(c).Some? && Digit(c).value < base
    ensures Value([c] + s, base) == Some(Digit(c).value * Power(base, |s|) + Value(s, base).value)
  {
    hide Digit, Value;
    var d, all := Digit(c).value, [c] + s;
    ValueNext(all, base);
    if s == "" {
      assert all[..0] == "";
      ValueOfNothing(base);
    } else {
      var front := s[..|s| - 1];
      ValueNext(s, base);
      LeadingDigit(c, front, base);
      assert all[..|s|] == [c] + front;
      Regrouped(base, d, Power(base, |s| - 1), Value(front, base).value);
    }
  }

  lemma ValueOfNothing(base: Base)
    ensures Value("", base) == Some(0)
  {
  }

  // The last digit counts as it is, all before it base times.
  lemma ValueNext(s: string, base: Base)
    requires s != ""
    ensures var high, low := Value(s[..|s| - 1], base), Digit(s[|s| - 1]);
            Value(s, base) ==
              if high.Some? && low.Some? && low.value < base then Some(base * high.value + low.value) else None
  {
  }
}
