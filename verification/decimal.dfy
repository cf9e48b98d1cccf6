/** Decimal text of natural numbers, as Python's `str(int)` and f-string
    interpolation produce it (used for `step-<i>` ids and the run summary),
    together with the parser that reads it back. */
module Decimal {
  import opened Wrappers

  predicate IsDigit(c: char) {
    '0' <= c <= '9'
  }

  function DigitChar(d: nat): (c: char)
    requires d < 10
    ensures IsDigit(c) && (c as int) - ('0' as int) == d
  {
    ('0' as int + d) as char
  }

  function DigitValue(c: char): (d: nat)
    requires IsDigit(c)
    ensures d < 10 && DigitChar(d) == c
  {
    (c as int) - ('0' as int)
  }

  /** Canonical decimal text: non-empty, digits only, and no leading zero
      unless the number is zero itself. */
  predicate Canonical(s: string) {
    && |s| >= 1
    && (forall i | 0 <= i < |s| :: IsDigit(s[i]))
    && (|s| > 1 ==> s[0] != '0')
  }

  /** The decimal text of `n`, most significant digit first. */
  function Format(n: nat): (s: string)
    ensures Canonical(s)
    ensures n > 0 ==> s[0] != '0'
    decreases n
  {
    if n < 10 then [DigitChar(n)] else Format(n / 10) + [DigitChar(n % 10)]
  }

  /** The value of a non-empty string of digits, read left to right. */
  function Digits(s: string): nat
    requires |s| >= 1 && forall i | 0 <= i < |s| :: IsDigit(s[i])
    decreases |s|
  {
    if |s| == 1 then DigitValue(s[0])
    else Digits(s[..|s| - 1]) * 10 + DigitValue(s[|s| - 1])
  }

  /** Reads canonical decimal text back; anything else is rejected. */
  function Parse(s: string): (r: Option<nat>)
    ensures r.Some? <==> Canonical(s)
  {
    if Canonical(s) then Some(Digits(s)) else None
  }

  /** Formatting is inverted by parsing. */
  lemma {:induction false} ParseFormat(n: nat)
    ensures Parse(Format(n)) == Some(n)
    decreases n
  {
    if n >= 10 {
      ParseFormat(n / 10);
      var s := Format(n);
      assert s[..|s| - 1] == Format(n / 10);
    }
  }

  /** Parsing canonical text and formatting the number gives the text
      back: canonical decimal strings and naturals are in one-to-one
      correspondence. */
  lemma {:induction false} FormatParse(s: string)
    requires Canonical(s)
    ensures Format(Digits(s)) == s
    decreases |s|
  {
    if |s| > 1 {
      var p := s[..|s| - 1];
      assert Canonical(p) by {
        assert p[0] == s[0];
        assert forall i | 0 <= i < |p| :: p[i] == s[i];
      }
      FormatParse(p);
      DigitsPositive(p);
    }
  }

  /** A canonical text of more than one digit denotes a positive number. */
  lemma {:induction false} DigitsPositive(s: string)
    requires Canonical(s) && s[0] != '0'
    ensures Digits(s) > 0
    decreases |s|
  {
    if |s| > 1 {
      var p := s[..|s| - 1];
      assert p[0] == s[0];
      DigitsPositive(p);
    }
  }

  /** Distinct numbers have distinct decimal texts. */
  lemma FormatInjective(m: nat, n: nat)
    requires m != n
    ensures Format(m) != Format(n)
  {
    ParseFormat(m);
    ParseFormat(n);
  }
}
